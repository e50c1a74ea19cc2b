/** The standalone single-enemy version of the game (main.go): one enemy walking the first
    map, towers that fire at it, projectiles kept as values in the game's list, and the
    edge-triggered tower placement with its error message. */
module Snapshot {
  import opened Config
  import opened Utils
  import opened GameMap
  import opened Entity
  import Packaged = Game

  // ---------------------------------------------------------------------------
  // The first map
  // ---------------------------------------------------------------------------

  /** The map of this version: the same five segments as the packaged default map, but
      starting at the top of the window instead of below the HUD. */
  function FirstMap(): (m: Map)
    ensures |m| == 5 && m[0].startX == 350.0 && m[0].startY == 0.0
    ensures ShiftY(m, MapOffsetY) == DefaultMap()
  {
    var m := [ Path(350.0, 0.0, 350.0, 150.0),
               Path(350.0, 150.0, 550.0, 150.0),
               Path(550.0, 150.0, 550.0, 350.0),
               Path(550.0, 350.0, 150.0, 350.0),
               Path(150.0, 350.0, 150.0, 600.0) ];
    assert ShiftY(m, MapOffsetY) == DefaultMap();
    m
  }

  /** Placement on the first map is the packaged five-point rule on the default map, with
      the point moved down by the same offset; this version has no HUD band to refuse. */
  lemma PlacementMatchesShifted(x: real, y: real)
    ensures CanPlaceTower(x, y, FirstMap()) == CanPlaceTower(x, y + MapOffsetY, DefaultMap())
  {
    var pts := PlacementPoints(x, y);
    var shifted := PlacementPoints(x, y + MapOffsetY);
    forall i | 0 <= i < 5
      ensures IsPositionOnPath(shifted[i].0, shifted[i].1, DefaultMap())
              == IsPositionOnPath(pts[i].0, pts[i].1, FirstMap())
    {
      assert shifted[i] == (pts[i].0, pts[i].1 + MapOffsetY);
      OnPathShifted(FirstMap(), MapOffsetY, pts[i].0, pts[i].1);
    }
  }

  // ---------------------------------------------------------------------------
  // Projectiles
  // ---------------------------------------------------------------------------

  /** A projectile of this version: a value in the game's list, chasing an enemy. */
  datatype Projectile = Projectile(positionX: real, positionY: real, target: Enemy?)

  /** Every projectile flies at 10 per tick. */
  const ProjectileSpeed: int := 10

  /** hit: reports whether the projectile reached its target, and where it is after
      flying one step toward it. A missing or dead target is never reached, and the
      projectile then stays where it is. */
  function Hit(p: Projectile, sqrt: real -> real): (r: (bool, Projectile))
    reads p.target
    ensures r.1.target == p.target
    ensures p.target == null || !p.target.IsAlive() ==> r == (false, p)
    ensures r.0 ==> r.1 == p
    ensures p.target != null && p.target.IsAlive() ==>
      r == match Home(p.positionX, p.positionY, p.target.positionX, p.target.positionY, ProjectileSpeed as real, sqrt)
           case Strike => (true, p)
           case Advance(nx, ny) => (false, p.(positionX := nx, positionY := ny))
  {
    if p.target == null || !p.target.IsAlive() then (false, p)
    else match Home(p.positionX, p.positionY, p.target.positionX, p.target.positionY,
                    ProjectileSpeed as real, sqrt)
      case Strike => (true, p)
      case Advance(nx, ny) => (false, p.(positionX := nx, positionY := ny))
  }

  /** The projectiles' turn over the first n projectiles, all chasing the one enemy, seen
      at (tx, ty) with `life` hit points. While it lives, each projectile either strikes it
      for 10, with no clamping, and is dropped, or flies one step and is kept; once it is
      dead every remaining projectile is dropped. */
  function ResolveUpTo(ps: seq<Projectile>, life: int, tx: real, ty: real, sqrt: real -> real,
                       n: nat): (r: (seq<Projectile>, int))
    requires n <= |ps|
    ensures |r.0| <= n
    ensures r.1 <= life
    ensures life <= 0 ==> r == ([], life)
  {
    if n == 0 then ([], life)
    else
      var before := ResolveUpTo(ps, life, tx, ty, sqrt, n - 1);
      var p := ps[n - 1];
      if before.1 <= 0 then before
      else match Home(p.positionX, p.positionY, tx, ty, ProjectileSpeed as real, sqrt)
        case Strike => (before.0, before.1 - 10)
        case Advance(nx, ny) => (before.0 + [p.(positionX := nx, positionY := ny)], before.1)
  }

  /** Damage comes in tens and stops with the enemy's death: the hit points left are
      either untouched, or lower by a multiple of 10 and above -10. */
  lemma {:induction false} DamageStopsAtDeath(ps: seq<Projectile>, life: int, tx: real, ty: real,
                                             sqrt: real -> real, n: nat)
    requires n <= |ps|
    ensures var l := ResolveUpTo(ps, life, tx, ty, sqrt, n).1;
      l == life || (-10 < l < life && (life - l) % 10 == 0)
  {
    if n > 0 {
      DamageStopsAtDeath(ps, life, tx, ty, sqrt, n - 1);
      var l := ResolveUpTo(ps, life, tx, ty, sqrt, n - 1).1;
      var p := ps[n - 1];
      if l > 0 && Home(p.positionX, p.positionY, tx, ty, ProjectileSpeed as real, sqrt) == Strike {
        assert ResolveUpTo(ps, life, tx, ty, sqrt, n).1 == l - 10;
        assert life - (l - 10) == (life - l) + 10;
      } else {
        assert ResolveUpTo(ps, life, tx, ty, sqrt, n).1 == l;
      }
    }
  }

  /** An enemy whose hit points are a non-negative multiple of 10 (it starts with 40) keeps
      them so: in play, the unclamped damage never takes it below zero. */
  lemma {:induction false} LifeStaysOnTens(ps: seq<Projectile>, life: int, tx: real, ty: real,
                                          sqrt: real -> real, n: nat)
    requires n <= |ps| && 0 <= life && life % 10 == 0
    ensures var l := ResolveUpTo(ps, life, tx, ty, sqrt, n).1;
      0 <= l <= life && l % 10 == 0
  {
    if n > 0 {
      LifeStaysOnTens(ps, life, tx, ty, sqrt, n - 1);
    }
  }

  /** The projectiles kept are the ones given, moved: they chase the same enemy. */
  lemma {:induction false} KeptChaseTarget(ps: seq<Projectile>, life: int, tx: real, ty: real,
                                          sqrt: real -> real, n: nat, e: Enemy)
    requires n <= |ps| && forall i :: 0 <= i < |ps| ==> ps[i].target == e
    ensures forall j :: 0 <= j < |ResolveUpTo(ps, life, tx, ty, sqrt, n).0| ==>
      ResolveUpTo(ps, life, tx, ty, sqrt, n).0[j].target == e
  {
    if n > 0 {
      KeptChaseTarget(ps, life, tx, ty, sqrt, n - 1, e);
      var before := ResolveUpTo(ps, life, tx, ty, sqrt, n - 1);
      var p := ps[n - 1];
      var step := Home(p.positionX, p.positionY, tx, ty, ProjectileSpeed as real, sqrt);
      if before.1 > 0 && step.Advance? {
        var kept := before.0 + [p.(positionX := step.x, positionY := step.y)];
        assert ResolveUpTo(ps, life, tx, ty, sqrt, n).0 == kept;
      } else {
        assert ResolveUpTo(ps, life, tx, ty, sqrt, n).0 == before.0;
      }
    }
  }

  /** Unlike TakeDamage, a hit is not clamped: an enemy with 5 hit points struck once is
      left with -5, where the packaged game would leave it with 0. */
  lemma UnclampedHit(sqrt: real -> real, target: Enemy)
    requires IsSqrt(sqrt)
    ensures ResolveUpTo([Projectile(0.0, 0.0, target)], 5, 0.0, 0.0, sqrt, 1).1 == -5
    ensures Damaged(5, 10) == 0
  {
    SqrtOfSquare(sqrt, 0.0, 0.0);
    assert Home(0.0, 0.0, 0.0, 0.0, ProjectileSpeed as real, sqrt) == Strike;
  }

  // ---------------------------------------------------------------------------
  // Towers
  // ---------------------------------------------------------------------------

  /** Every tower fires once per second, as createTower makes it. */
  predicate Armed(ts: seq<Tower>)
  {
    forall i :: 0 <= i < |ts| ==> ts[i].fireRate == 1.0
  }

  /** Whether a tower fires this tick at the enemy seen at (ex, ey) with `life` hit points:
      the enemy is in range, alive, and the tower has reloaded. */
  predicate Fires(t: Tower, ex: real, ey: real, life: int, tick: int)
    requires t.fireRate == 1.0
  {
    SquaredDistance(t.positionX, t.positionY, ex, ey) <= t.range * t.range && life > 0 && CanFire(t, tick)
  }

  /** The towers' turn over the first n towers: each one that fires records the tick as
      its last shot and adds a projectile at its centre, chasing the target. */
  function FireUpTo(ts: seq<Tower>, ex: real, ey: real, life: int, tick: int, target: Enemy,
                    n: nat): (r: (seq<Tower>, seq<Projectile>))
    requires Armed(ts) && n <= |ts|
    ensures |r.0| == n && |r.1| <= n
    ensures forall j :: 0 <= j < |r.1| ==> r.1[j].target == target
    ensures life <= 0 ==> r.1 == []
  {
    if n == 0 then ([], [])
    else
      var before := FireUpTo(ts, ex, ey, life, tick, target, n - 1);
      var t := ts[n - 1];
      if Fires(t, ex, ey, life, tick) then
        (before.0 + [t.(lastFireTime := tick)], before.1 + [Projectile(t.positionX, t.positionY, target)])
      else (before.0 + [t], before.1)
  }

  /** Each tower keeps everything but its last-shot time, which becomes the tick exactly
      when it fires, and a tower that fired cannot fire again in the same tick. */
  lemma {:induction false} FireOncePerTick(ts: seq<Tower>, ex: real, ey: real, life: int, tick: int,
                                          target: Enemy, n: nat)
    requires Armed(ts) && n <= |ts|
    ensures var r := FireUpTo(ts, ex, ey, life, tick, target, n);
      && (forall i :: 0 <= i < n ==>
            r.0[i] == if Fires(ts[i], ex, ey, life, tick) then ts[i].(lastFireTime := tick) else ts[i])
      && (forall i :: 0 <= i < n && Fires(ts[i], ex, ey, life, tick) ==> !CanFire(r.0[i], tick))
  {
    if n > 0 {
      FireOncePerTick(ts, ex, ey, life, tick, target, n - 1);
    }
  }

  /** How many of the first n towers fire this tick. */
  function FiringUpTo(ts: seq<Tower>, ex: real, ey: real, life: int, tick: int, n: nat): nat
    requires Armed(ts) && n <= |ts|
  {
    if n == 0 then 0
    else FiringUpTo(ts, ex, ey, life, tick, n - 1) + if Fires(ts[n - 1], ex, ey, life, tick) then 1 else 0
  }

  /** The projectiles fired are one per firing tower: each sits at the centre of a tower
      that fires this tick (in range, alive enemy, reloaded) and chases the target. */
  lemma {:induction false} FireAims(ts: seq<Tower>, ex: real, ey: real, life: int, tick: int,
                                   target: Enemy, n: nat)
    requires Armed(ts) && n <= |ts|
    ensures var r := FireUpTo(ts, ex, ey, life, tick, target, n);
      && |r.1| == FiringUpTo(ts, ex, ey, life, tick, n)
      && (forall j :: 0 <= j < |r.1| ==>
            exists i :: 0 <= i < n && Fires(ts[i], ex, ey, life, tick)
                        && r.1[j] == Projectile(ts[i].positionX, ts[i].positionY, target))
  {
    if n > 0 {
      FireAims(ts, ex, ey, life, tick, target, n - 1);
      var before := FireUpTo(ts, ex, ey, life, tick, target, n - 1);
      var r := FireUpTo(ts, ex, ey, life, tick, target, n);
      forall j | 0 <= j < |r.1|
        ensures exists i :: 0 <= i < n && Fires(ts[i], ex, ey, life, tick)
                            && r.1[j] == Projectile(ts[i].positionX, ts[i].positionY, target)
      {
        if j < |before.1| {
          assert r.1[j] == before.1[j];
        } else {
          assert Fires(ts[n - 1], ex, ey, life, tick);
        }
      }
    }
  }

  /** The fight of a tick once the enemy has moved to (ex, ey): the towers fire at it
      with the hit points it had, then every projectile, old and new, flies. Gives the
      towers, the projectiles kept and the enemy's hit points. The towers are all kept, hit
      points never rise, and a dead enemy is neither shot at nor chased. */
  function Fought(ts: seq<Tower>, ps: seq<Projectile>, life: int, ex: real, ey: real, tick: int,
                  target: Enemy, sqrt: real -> real): (r: (seq<Tower>, seq<Projectile>, int))
    requires Armed(ts)
    ensures |r.0| == |ts| && r.2 <= life
    ensures life <= 0 ==> r.1 == [] && r.2 == life
  {
    var fired := FireUpTo(ts, ex, ey, life, tick, target, |ts|);
    var flown := ResolveUpTo(ps + fired.1, life, ex, ey, sqrt, |ps| + |fired.1|);
    (fired.0, flown.0, flown.1)
  }

  // ---------------------------------------------------------------------------
  // The game
  // ---------------------------------------------------------------------------

  class Game {
    const maps: seq<Map>
    var towers: seq<Tower>
    var projectiles: seq<Projectile>
    const towerLimit: int
    var mousePressed: bool
    var tick: int
    var errorMessage: string
    var errorTimer: int
    /** The one enemy of this version, shared by the game and every projectile. */
    const enemy: Enemy

    /** What every tick keeps: the first map and a limit of 3 towers; towers within the
        limit, firing once per second and off the path; projectiles chasing the enemy; the
        error message shown exactly while its timer runs; and the enemy's hit points a
        non-negative multiple of 10. */
    ghost predicate Valid()
      reads this, enemy
    {
      && maps == [FirstMap()] && towerLimit == 3
      && |towers| <= towerLimit && Armed(towers)
      && (forall i :: 0 <= i < |towers| ==> CanPlaceTower(towers[i].positionX, towers[i].positionY, FirstMap()))
      && (forall i :: 0 <= i < |projectiles| ==> projectiles[i].target == enemy)
      && 0 <= errorTimer <= Packaged.ErrorTicks && (errorTimer == 0 <==> errorMessage == "")
      && 0 <= enemy.life && enemy.life % 10 == 0
    }

    /** The game main builds: the first map, a limit of 3 towers, nothing placed, and the
        enemy at the centre of the path's start with 40 hit points. */
    constructor ()
      ensures Valid() && fresh(enemy)
      ensures towers == [] && projectiles == [] && !mousePressed && tick == 0
      ensures errorMessage == "" && errorTimer == 0
      ensures enemy.Motion() == Mover(CenterInPath(350.0, PathWidth), CenterInPath(0.0, PathWidth), 2.0, 0)
      ensures enemy.life == 40
    {
      maps := [FirstMap()];
      towerLimit := 3;
      towers, projectiles := [], [];
      mousePressed, tick := false, 0;
      errorMessage, errorTimer := "", 0;
      enemy := new Enemy(FirstMap());
    }

    /** The enemy follows the first map, but only while it is alive. */
    method MoveEnemy()
      modifies enemy`positionX, enemy`positionY, enemy`currentPathIndex
      ensures enemy.Motion() ==
        if enemy.life > 0 then PathStep(old(enemy.Motion()), FirstMap()) else old(enemy.Motion())
    {
      if enemy.IsAlive() {
        enemy.FollowPath(FirstMap());
      }
    }

    /** Each tower in order fires at the enemy when it is in range, alive and the tower has
        reloaded, and then records the tick as its last shot. */
    method FireTowers()
      requires Armed(towers)
      modifies this`towers, this`projectiles
      ensures var r := FireUpTo(old(towers), enemy.positionX, enemy.positionY, enemy.life, tick, enemy, |old(towers)|);
        towers == r.0 && projectiles == old(projectiles) + r.1
    {
      ghost var ts := towers;
      var i := 0;
      while i < |towers|
        invariant 0 <= i <= |towers| == |ts| && Armed(towers)
        invariant towers[..i] == FireUpTo(ts, enemy.positionX, enemy.positionY, enemy.life, tick, enemy, i).0
        invariant towers[i..] == ts[i..]
        invariant projectiles == old(projectiles) + FireUpTo(ts, enemy.positionX, enemy.positionY, enemy.life, tick, enemy, i).1
      {
        var tower := towers[i];
        assert tower == ts[i];
        if IsEnemyInRange(tower, enemy) && enemy.IsAlive() && CanFire(tower, tick) {
          // attack: a projectile at the tower's centre, chasing the enemy
          projectiles := projectiles + [Projectile(tower.positionX, tower.positionY, enemy)];
          towers := towers[i := tower.(lastFireTime := tick)];
        }
        assert towers[..i + 1] == towers[..i] + [towers[i]];
        i := i + 1;
      }
      assert towers == towers[..i];
    }

    /** Each projectile in order moves toward the enemy: one that reaches the living enemy
        takes 10 hit points off it and is dropped; one still flying at a living enemy is
        kept; the rest are dropped. */
    method MoveProjectiles(sqrt: real -> real)
      requires forall i :: 0 <= i < |projectiles| ==> projectiles[i].target == enemy
      modifies this`projectiles, enemy`life
      ensures var r := ResolveUpTo(old(projectiles), old(enemy.life), enemy.positionX, enemy.positionY, sqrt, |old(projectiles)|);
        projectiles == r.0 && enemy.life == r.1
    {
      ghost var life := enemy.life;
      var activeProjectiles: seq<Projectile> := [];
      var i := 0;
      while i < |projectiles|
        invariant 0 <= i <= |projectiles| && projectiles == old(projectiles)
        invariant (activeProjectiles, enemy.life)
                  == ResolveUpTo(projectiles, life, enemy.positionX, enemy.positionY, sqrt, i)
      {
        var projectile := projectiles[i];
        var h := Hit(projectile, sqrt);
        if h.0 {
          if projectile.target != null && projectile.target.IsAlive() {
            projectile.target.life := projectile.target.life - 10;
          }
        } else if projectile.target != null && projectile.target.IsAlive() {
          activeProjectiles := activeProjectiles + [h.1];
        }
        i := i + 1;
      }
      projectiles := activeProjectiles;
    }

    /** On a press edge with fewer towers than the limit, a tower is placed at the cursor
        when its square is off the path, and otherwise the path error is shown for 120
        ticks; anything else changes nothing. */
    method HandleMouseInput(pressed: bool, mx: int, my: int)
      requires Valid()
      modifies this`towers, this`errorMessage, this`errorTimer
      ensures Valid()
      ensures var edge := pressed && !mousePressed && |old(towers)| < towerLimit;
        && (edge && CanPlaceTower(mx as real, my as real, FirstMap()) ==>
              towers == old(towers) + [NewTower(mx as real, my as real)]
              && errorMessage == old(errorMessage) && errorTimer == old(errorTimer))
        && (edge && !CanPlaceTower(mx as real, my as real, FirstMap()) ==>
              towers == old(towers) && errorMessage == Packaged.PathError && errorTimer == Packaged.ErrorTicks)
        && (!edge ==>
              towers == old(towers) && errorMessage == old(errorMessage) && errorTimer == old(errorTimer))
    {
      if pressed && !mousePressed && |towers| < towerLimit {
        if CanPlaceTower(mx as real, my as real, maps[0]) {
          towers := towers + [NewTower(mx as real, my as real)];
        } else {
          errorMessage := "Cannot place tower on path!";
          errorTimer := 120;
        }
      }
    }

    /** The error message's timer runs down by one each tick and the message goes when it
        reaches zero. */
    method TickErrorTimer()
      modifies this`errorTimer, this`errorMessage
      ensures (errorTimer, errorMessage) == Packaged.Countdown(old(errorTimer), old(errorMessage))
    {
      if errorTimer > 0 {
        errorTimer := errorTimer - 1;
        if errorTimer == 0 {
          errorMessage := "";
        }
      }
    }

    /** The fight of a tick: the enemy moves, the towers fire, the projectiles fly. */
    method Fight(sqrt: real -> real)
      requires Valid()
      modifies this`towers, this`projectiles, enemy`positionX, enemy`positionY, enemy`currentPathIndex, enemy`life
      ensures Valid()
      ensures enemy.Motion() ==
        if old(enemy.life) > 0 then PathStep(old(enemy.Motion()), FirstMap()) else old(enemy.Motion())
      ensures enemy.life <= old(enemy.life)
      ensures old(enemy.life) <= 0 ==> projectiles == [] && enemy.life == old(enemy.life)
      ensures |towers| == |old(towers)|
      ensures (towers, projectiles, enemy.life)
              == Fought(old(towers), old(projectiles), old(enemy.life), enemy.positionX, enemy.positionY, tick, enemy, sqrt)
    {
      MoveEnemy();
      Exchange(sqrt);
    }

    /** The towers fire, then the projectiles fly, at the enemy where it now stands. */
    method Exchange(sqrt: real -> real)
      requires Valid()
      modifies this`towers, this`projectiles, enemy`life
      ensures Valid()
      ensures (towers, projectiles, enemy.life)
              == Fought(old(towers), old(projectiles), old(enemy.life), enemy.positionX, enemy.positionY, tick, enemy, sqrt)
    {
      ghost var ts, ps, life := towers, projectiles, enemy.life;
      Shoot();
      ghost var fired := FireUpTo(ts, enemy.positionX, enemy.positionY, life, tick, enemy, |ts|);
      assert towers == fired.0 && projectiles == ps + fired.1;
      Fly(sqrt);
    }

    /** The towers' turn, with what the invariant needs: only last-shot times change, and
        nothing is fired at a dead enemy. */
    method Shoot()
      requires Valid()
      modifies this`towers, this`projectiles
      ensures Valid()
      ensures |towers| == |old(towers)|
      ensures forall i :: 0 <= i < |towers| ==>
        towers[i] == old(towers[i]) || towers[i] == old(towers[i]).(lastFireTime := tick)
      ensures enemy.life <= 0 ==> projectiles == old(projectiles)
      ensures var r := FireUpTo(old(towers), enemy.positionX, enemy.positionY, enemy.life, tick, enemy, |old(towers)|);
        towers == r.0 && projectiles == old(projectiles) + r.1
    {
      ghost var ts := towers;
      FireTowers();
      FireOncePerTick(ts, enemy.positionX, enemy.positionY, enemy.life, tick, enemy, |ts|);
    }

    /** The projectiles' turn, with what the invariant needs: hit points only go down, and
        a dead enemy keeps no projectile in play. */
    method Fly(sqrt: real -> real)
      requires Valid()
      modifies this`projectiles, enemy`life
      ensures Valid()
      ensures enemy.life <= old(enemy.life)
      ensures old(enemy.life) <= 0 ==> projectiles == [] && enemy.life == old(enemy.life)
      ensures var r := ResolveUpTo(old(projectiles), old(enemy.life), enemy.positionX, enemy.positionY, sqrt, |old(projectiles)|);
        projectiles == r.0 && enemy.life == r.1
    {
      ghost var ps := projectiles;
      ghost var life := enemy.life;
      MoveProjectiles(sqrt);
      LifeStaysOnTens(ps, life, enemy.positionX, enemy.positionY, sqrt, |ps|);
      KeptChaseTarget(ps, life, enemy.positionX, enemy.positionY, sqrt, |ps|, enemy);
    }

    /** One tick: the counter goes up, the fight runs, then the player's click and the
        error timer, and the button state is remembered for the next tick. */
    method Update(pressed: bool, mx: int, my: int, sqrt: real -> real)
      requires Valid()
      modifies this, enemy
      ensures Valid() && tick == old(tick) + 1 && mousePressed == pressed
      ensures enemy.Motion() ==
        if old(enemy.life) > 0 then PathStep(old(enemy.Motion()), FirstMap()) else old(enemy.Motion())
      ensures enemy.life <= old(enemy.life)
      ensures old(enemy.life) <= 0 ==> projectiles == [] && enemy.life == old(enemy.life)
      ensures |old(towers)| <= |towers| <= |old(towers)| + 1
      ensures var fought := Fought(old(towers), old(projectiles), old(enemy.life), enemy.positionX, enemy.positionY,
                                   tick, enemy, sqrt);
        var edge := pressed && !old(mousePressed) && |old(towers)| < towerLimit;
        var place := edge && CanPlaceTower(mx as real, my as real, FirstMap());
        && projectiles == fought.1 && enemy.life == fought.2
        && towers == (if place then fought.0 + [NewTower(mx as real, my as real)] else fought.0)
        && (errorTimer, errorMessage)
           == Packaged.Countdown(if edge && !place then Packaged.ErrorTicks else old(errorTimer),
                                 if edge && !place then Packaged.PathError else old(errorMessage))
    {
      tick := tick + 1;
      Fight(sqrt);
      Respond(pressed, mx, my);
    }

    /** The player's part of a tick: the click, then the error timer, and the button
        state is remembered for the next tick. */
    method Respond(pressed: bool, mx: int, my: int)
      requires Valid()
      modifies this`towers, this`errorMessage, this`errorTimer, this`mousePressed
      ensures Valid() && mousePressed == pressed
      ensures var edge := pressed && !old(mousePressed) && |old(towers)| < towerLimit;
        var place := edge && CanPlaceTower(mx as real, my as real, FirstMap());
        && towers == (if place then old(towers) + [NewTower(mx as real, my as real)] else old(towers))
        && (errorTimer, errorMessage)
           == Packaged.Countdown(if edge && !place then Packaged.ErrorTicks else old(errorTimer),
                                 if edge && !place then Packaged.PathError else old(errorMessage))
    {
      HandleMouseInput(pressed, mx, my);
      TickErrorTimer();
      mousePressed := pressed;
    }
  }
}

/** Enemies, towers and projectiles (internal/entity/enemy.go, tower.go, projectile.go). */
module Entity {
  import opened Config
  import opened Utils
  import opened GameMap

  // ---------------------------------------------------------------------------
  // Enemy motion (enemy.go)
  // ---------------------------------------------------------------------------

  /** The part of an enemy that path following reads and writes: its centre, its speed
      and the index of the segment it is walking. */
  datatype Mover = Mover(positionX: real, positionY: real, speed: real, currentPathIndex: nat)

  /** One tick of path following. On a vertical segment the enemy is snapped to the
      corridor's centre line and walks down until it reaches the centre of the end corner;
      on a horizontal one it is snapped likewise and walks toward the end corner. On arrival
      it moves on to the next segment instead of moving. */
  function PathStep(s: Mover, m: Map): (r: Mover)
    ensures r.speed == s.speed
    ensures s.currentPathIndex <= r.currentPathIndex <= s.currentPathIndex + 1
    // an escaped enemy, or a segment that is neither vertical nor horizontal, changes nothing
    ensures s.currentPathIndex >= |m| ==> r == s
    ensures var i := s.currentPathIndex;
      i < |m| && !IsVertical(m[i]) && !IsHorizontal(m[i]) ==> r == s
    // the coordinate across the segment is the corridor's centre line
    ensures var i := s.currentPathIndex;
      i < |m| && IsVertical(m[i]) ==> r.positionX == CenterInPath(m[i].startX, PathWidth)
    ensures var i := s.currentPathIndex;
      i < |m| && !IsVertical(m[i]) && IsHorizontal(m[i]) ==> r.positionY == CenterInPath(m[i].startY, PathWidth)
    // the enemy moves on to the next segment exactly when it has reached the end corner
    ensures var i := s.currentPathIndex;
      i < |m| && IsVertical(m[i]) ==>
        (r.currentPathIndex == i + 1 <==> s.positionY >= CenterInPath(m[i].endY, PathWidth))
    ensures var i := s.currentPathIndex;
      i < |m| && !IsVertical(m[i]) && IsHorizontal(m[i]) && m[i].endX > m[i].startX ==>
        (r.currentPathIndex == i + 1 <==> s.positionX >= CenterInPath(m[i].endX, PathWidth))
    ensures var i := s.currentPathIndex;
      i < |m| && !IsVertical(m[i]) && IsHorizontal(m[i]) && m[i].endX <= m[i].startX ==>
        (r.currentPathIndex == i + 1 <==> s.positionX <= CenterInPath(m[i].endX, PathWidth))
    // it either moves by exactly its speed along the segment or moves on, never both
    ensures var i := s.currentPathIndex;
      i < |m| && IsVertical(m[i]) ==>
        r.positionY == if r.currentPathIndex == i then s.positionY + s.speed else s.positionY
    ensures var i := s.currentPathIndex;
      i < |m| && !IsVertical(m[i]) && IsHorizontal(m[i]) ==>
        r.positionX == if r.currentPathIndex == i + 1 then s.positionX
                       else if m[i].endX > m[i].startX then s.positionX + s.speed
                       else s.positionX - s.speed
  {
    if s.currentPathIndex >= |m| then s
    else
      var path := m[s.currentPathIndex];
      if path.startX == path.endX then
        var targetCenterX := CenterInPath(path.startX, PathWidth);
        var targetCenterY := CenterInPath(path.endY, PathWidth);
        if s.positionY < targetCenterY then s.(positionX := targetCenterX, positionY := s.positionY + s.speed)
        else s.(positionX := targetCenterX, currentPathIndex := s.currentPathIndex + 1)
      else if path.startY == path.endY then
        var targetCenterY := CenterInPath(path.startY, PathWidth);
        var targetCenterX := CenterInPath(path.endX, PathWidth);
        if path.endX > path.startX then
          if s.positionX < targetCenterX then s.(positionX := s.positionX + s.speed, positionY := targetCenterY)
          else s.(positionY := targetCenterY, currentPathIndex := s.currentPathIndex + 1)
        else
          if s.positionX > targetCenterX then s.(positionX := s.positionX - s.speed, positionY := targetCenterY)
          else s.(positionY := targetCenterY, currentPathIndex := s.currentPathIndex + 1)
      else s
  }

  /** The enemy after n ticks of path following. */
  function Walk(s: Mover, m: Map, n: nat): Mover
    decreases n
  {
    if n == 0 then s else Walk(PathStep(s, m), m, n - 1)
  }

  /** Over any number of ticks the segment index never decreases, grows by at most one per
      tick, and the speed never changes. */
  lemma {:induction false} WalkNeverBacktracks(s: Mover, m: Map, n: nat)
    ensures s.currentPathIndex <= Walk(s, m, n).currentPathIndex <= s.currentPathIndex + n
    ensures Walk(s, m, n).speed == s.speed
    decreases n
  {
    if n > 0 {
      WalkNeverBacktracks(PathStep(s, m), m, n - 1);
    }
  }

  /** An enemy that has left the path stays where it is. */
  lemma {:induction false} EscapedStaysPut(s: Mover, m: Map, n: nat)
    requires s.currentPathIndex >= |m|
    ensures Walk(s, m, n) == s
    decreases n
  {
    if n > 0 {
      EscapedStaysPut(PathStep(s, m), m, n - 1);
    }
  }

  /** Hit points left after `damage`, clamped at zero. */
  function Damaged(life: int, damage: int): (r: int)
    ensures 0 <= r
    ensures r > 0 <==> life > damage
    ensures r > 0 ==> r == life - damage
    ensures 0 <= damage && 0 <= life ==> r <= life
  {
    if life - damage < 0 then 0 else life - damage
  }

  /** The initial enemy of the game dies from exactly four hits of 10 damage. */
  lemma FourHitsKill()
    ensures Damaged(Damaged(Damaged(40, 10), 10), 10) > 0
    ensures Damaged(Damaged(Damaged(Damaged(40, 10), 10), 10), 10) == 0
  {
  }

  class Enemy {
    var positionX: real        // centre X
    var positionY: real        // centre Y
    var speed: real
    var currentPathIndex: nat
    var life: int

    /** The enemy's position, speed and segment index as a value. */
    function Motion(): Mover
      reads this
    {
      Mover(positionX, positionY, speed, currentPathIndex)
    }

    /** NewEnemy: at the centre of the first segment's start corner, with 40 hit points;
        on an empty map, a zero enemy that is already dead. */
    constructor (m: Map)
      ensures m == [] ==> positionX == 0.0 && positionY == 0.0 && speed == 0.0
                          && currentPathIndex == 0 && life == 0 && !IsAlive()
      ensures m != [] ==> positionX == CenterInPath(m[0].startX, PathWidth)
                          && positionY == CenterInPath(m[0].startY, PathWidth)
                          && speed == 2.0 && currentPathIndex == 0 && life == 40 && IsAlive()
    {
      if |m| == 0 {
        positionX, positionY, speed, currentPathIndex, life := 0.0, 0.0, 0.0, 0, 0;
      } else {
        var firstPath := m[0];
        positionX := CenterInPath(firstPath.startX, PathWidth);
        positionY := CenterInPath(firstPath.startY, PathWidth);
        speed := 2.0;
        currentPathIndex := 0;
        life := 40;
      }
    }

    /** Whether the enemy still has hit points; a dead one stays dead whatever damage
        it takes. */
    function IsAlive(): (r: bool)
      reads this
      ensures r <==> life > 0
      ensures !r ==> forall d :: 0 <= d ==> Damaged(life, d) == 0
    {
      life > 0
    }

    /** Subtracts the damage, never going below zero hit points. */
    method TakeDamage(damage: int)
      modifies this`life
      ensures life == Damaged(old(life), damage)
      ensures 0 <= life
      ensures IsAlive() <==> old(life) > damage
    {
      life := life - damage;
      if life < 0 {
        life := 0;
      }
    }

    /** One tick of path following; hit points are untouched. */
    method FollowPath(m: Map)
      modifies this`positionX, this`positionY, this`currentPathIndex
      ensures Motion() == PathStep(old(Motion()), m)
      ensures old(currentPathIndex) <= currentPathIndex <= old(currentPathIndex) + 1
    {
      if currentPathIndex >= |m| {
        return;
      }
      var path := m[currentPathIndex];
      if path.startX == path.endX {
        // vertical: centre on the X axis, walk down
        var targetCenterX := CenterInPath(path.startX, PathWidth);
        positionX := targetCenterX;
        var targetCenterY := CenterInPath(path.endY, PathWidth);
        if positionY < targetCenterY {
          positionY := positionY + speed;
        } else {
          currentPathIndex := currentPathIndex + 1;
        }
      } else if path.startY == path.endY {
        // horizontal: centre on the Y axis, walk toward the end corner
        var targetCenterY := CenterInPath(path.startY, PathWidth);
        positionY := targetCenterY;
        var targetCenterX := CenterInPath(path.endX, PathWidth);
        if path.endX > path.startX {
          if positionX < targetCenterX {
            positionX := positionX + speed;
          } else {
            currentPathIndex := currentPathIndex + 1;
          }
        } else {
          if positionX > targetCenterX {
            positionX := positionX - speed;
          } else {
            currentPathIndex := currentPathIndex + 1;
          }
        }
      }
    }
  }

  // ---------------------------------------------------------------------------
  // Towers (tower.go)
  // ---------------------------------------------------------------------------

  /** A tower, centred at (positionX, positionY). */
  datatype Tower = Tower(positionX: real, positionY: real, range: real, damage: int,
                         fireRate: real, lastFireTime: int)

  /** Ticks between two shots: Go's int(60.0 / fireRate), which truncates; one shot per
      second is 60 ticks. */
  function TicksPerShot(fireRate: real): (r: int)
    requires fireRate != 0.0
    ensures 0.0 < fireRate ==> 0 <= r && r as real <= 60.0 / fireRate < r as real + 1.0
    ensures fireRate == 1.0 ==> r == 60
  {
    Trunc(60.0 / fireRate)
  }

  /** Whether enough ticks have passed since the last shot. */
  function CanFire(t: Tower, currentTick: int): (r: bool)
    requires t.fireRate != 0.0
    ensures 0.0 < t.fireRate ==>
      (r <==> (currentTick - t.lastFireTime) as real > 60.0 / t.fireRate - 1.0)
    ensures t.fireRate == 1.0 ==> (r <==> currentTick - t.lastFireTime >= 60)
  {
    currentTick - t.lastFireTime >= TicksPerShot(t.fireRate)
  }

  /** NewTower: range 100, damage 10, one shot per second, never fired; such a tower may
      fire at tick t exactly when t is at least 60, and covers its own centre. */
  function NewTower(x: real, y: real): (t: Tower)
    ensures t.positionX == x && t.positionY == y && t.lastFireTime == 0
    ensures t.range == 100.0 && t.damage == 10 && t.fireRate == 1.0
    ensures forall tick :: CanFire(t, tick) <==> tick >= 60
    ensures SquaredDistance(x, y, t.positionX, t.positionY) <= t.range * t.range
  {
    Tower(x, y, 100.0, 10, 1.0, 0)
  }

  /** Whether the enemy's centre lies within the tower's range (inclusive); the test
      gives the same answer measured from the enemy, and an enemy at the tower's centre
      is always in range. */
  function IsEnemyInRange(t: Tower, e: Enemy): (r: bool)
    reads e
    ensures r <== SquaredDistance(e.positionX, e.positionY, t.positionX, t.positionY) <= t.range * t.range
    ensures r ==> SquaredDistance(e.positionX, e.positionY, t.positionX, t.positionY) <= t.range * t.range
    ensures e.positionX == t.positionX && e.positionY == t.positionY ==> r
  {
    SquaredDistanceSymmetric(t.positionX, t.positionY, e.positionX, e.positionY);
    SquaredDistance(t.positionX, t.positionY, e.positionX, e.positionY) <= t.range * t.range
  }

  /** The five points of a tower's square that placement checks: centre, then the
      top-left, top-right, bottom-left and bottom-right corners. */
  function PlacementPoints(centerX: real, centerY: real): seq<(real, real)>
  {
    var halfSize := TowerSize / 2.0;
    [ (centerX, centerY),
      (centerX - halfSize, centerY - halfSize),
      (centerX + halfSize, centerY - halfSize),
      (centerX - halfSize, centerY + halfSize),
      (centerX + halfSize, centerY + halfSize) ]
  }

  /** Searches the points in order and fails at the first one that is on the path. */
  function NoneOnPath(points: seq<(real, real)>, m: Map): (r: bool)
    ensures r <==> forall i :: 0 <= i < |points| ==> !IsPositionOnPath(points[i].0, points[i].1, m)
  {
    if points == [] then true
    else if IsPositionOnPath(points[0].0, points[0].1, m) then false
    else
      var rest := NoneOnPath(points[1..], m);
      assert forall i :: 1 <= i < |points| ==> points[i] == points[1..][i - 1];
      rest
  }

  /** A tower may be placed when neither its centre nor any corner of its square is on
      the path. */
  function CanPlaceTower(centerX: real, centerY: real, m: Map): (r: bool)
    ensures r <==> forall i :: 0 <= i < 5 ==>
      !IsPositionOnPath(PlacementPoints(centerX, centerY)[i].0, PlacementPoints(centerX, centerY)[i].1, m)
    ensures r ==> !IsPositionOnPath(centerX, centerY, m)
  {
    NoneOnPath(PlacementPoints(centerX, centerY), m)
  }

  /** Checking five points is enough: since every corridor box is larger than a tower,
      a placeable tower's whole square is off the path. */
  lemma PlacedTowerClearsPath(centerX: real, centerY: real, m: Map, px: real, py: real)
    requires CanPlaceTower(centerX, centerY, m)
    requires centerX - TowerSize / 2.0 <= px <= centerX + TowerSize / 2.0
    requires centerY - TowerSize / 2.0 <= py <= centerY + TowerSize / 2.0
    ensures !IsPositionOnPath(px, py, m)
  {
    var halfSize := TowerSize / 2.0;
    var pts := PlacementPoints(centerX, centerY);
    forall i | 0 <= i < |m|
      ensures !InCorridor(m[i], px, py)
    {
      var p := m[i];
      CorridorIsWide(p);
      // the corner of the square that lies in the box whenever (px, py) does
      var cx := if Min(p.startX, p.endX) - Margin <= centerX - halfSize then centerX - halfSize else centerX + halfSize;
      var cy := if Min(p.startY, p.endY) - Margin <= centerY - halfSize then centerY - halfSize else centerY + halfSize;
      var k := if cx < centerX then (if cy < centerY then 1 else 3) else (if cy < centerY then 2 else 4);
      assert pts[k] == (cx, cy);
      assert !IsPositionOnPath(cx, cy, m);
      assert !InCorridor(p, cx, cy);
      assert InCorridor(p, px, py) ==> InCorridor(p, cx, cy);
    }
  }

  // ---------------------------------------------------------------------------
  // Projectiles (projectile.go)
  // ---------------------------------------------------------------------------

  /** `sqrt` is an exact square root on the non-negative reals; it stands for math.Sqrt. */
  ghost predicate IsSqrt(sqrt: real -> real)
  {
    forall v :: 0.0 <= v ==> 0.0 <= sqrt(v) && sqrt(v) * sqrt(v) == v
  }

  // Arithmetic facts the solver needs as explicit steps in the geometry below.

  lemma MulPos(x: real, y: real)
    requires 0.0 < x && 0.0 < y
    ensures 0.0 < x * y
  {
  }

  lemma MulNonNeg(x: real, y: real)
    requires 0.0 <= x && 0.0 <= y
    ensures 0.0 <= x * y
  {
  }

  lemma ZeroFactor(x: real, y: real)
    requires y != 0.0 && x * y == 0.0
    ensures x == 0.0
  {
  }

  lemma SquareEq(a: real, b: real)
    requires a == b
    ensures a * a == b * b
  {
  }

  lemma DivMul(x: real, d: real)
    requires d != 0.0
    ensures (x / d) * d == x
  {
  }

  /** On the non-negative reals, squaring preserves the order. */
  lemma SquaresOrdered(a: real, b: real)
    requires 0.0 <= a && 0.0 <= b
    ensures a < b <==> a * a < b * b
  {
    assert (b - a) * (b + a) == b * b - a * a;
    if a < b {
      MulPos(b - a, b + a);
    } else {
      MulNonNeg(a - b, a + b);
      assert (a - b) * (a + b) == a * a - b * b;
    }
  }

  /** The square root of a square is its non-negative base. */
  lemma SqrtOfSquare(sqrt: real -> real, x: real, a: real)
    requires IsSqrt(sqrt) && 0.0 <= a && x == a * a
    ensures sqrt(x) == a
  {
    var r := sqrt(x);
    assert 0.0 <= r && r * r == a * a;
    SquaresOrdered(r, a);
    SquaresOrdered(a, r);
  }

  /** (u, v) = (dx, dy) / d is a unit vector when d is the length of (dx, dy). */
  lemma UnitVector(u: real, v: real, d: real, dx: real, dy: real)
    requires 0.0 < d && u * d == dx && v * d == dy
    requires d * d == dx * dx + dy * dy
    ensures u * u + v * v == 1.0
  {
    SquareEq(u * d, dx);
    SquareEq(v * d, dy);
    var s := u * u + v * v;
    assert ((s - 1.0) * d) * d == 0.0;
    ZeroFactor((s - 1.0) * d, d);
    ZeroFactor(s - 1.0, d);
  }

  /** Moving `speed` along the unit vector toward the target, from distance `d`, leaves the
      projectile at distance `d - speed`. */
  lemma StepClosesDistance(px: real, py: real, tx: real, ty: real, speed: real, d: real)
    requires 0.0 < speed <= d
    requires d * d == SquaredDistance(tx, ty, px, py)
    ensures SquaredDistance(tx, ty, px + (tx - px) / d * speed, py + (ty - py) / d * speed) == (d - speed) * (d - speed)
  {
    var dx, dy := tx - px, ty - py;
    var u, v := dx / d, dy / d;
    DivMul(dx, d);
    DivMul(dy, d);
    UnitVector(u, v, d, dx, dy);
    var e := d - speed;
    assert tx - (px + u * speed) == u * e;
    assert ty - (py + v * speed) == v * e;
    assert (u * e) * (u * e) + (v * e) * (v * e) == (u * u + v * v) * (e * e);
  }

  /** Outcome of one homing step: the target is reached, or the projectile moves on. */
  datatype Step = Strike | Advance(x: real, y: real)

  /** The distance test against the speed agrees with the test on squares. */
  lemma CloserThanSpeed(sqrt: real -> real, sd: real, speed: real)
    requires IsSqrt(sqrt) && 0.0 <= sd && 0.0 < speed
    ensures 0.0 <= sqrt(sd)
    ensures sqrt(sd) < speed <==> sd < speed * speed
  {
    assert 0.0 <= sqrt(sd) && sqrt(sd) * sqrt(sd) == sd;
    SquaresOrdered(sqrt(sd), speed);
  }

  /** After a step of `speed` from distance d >= speed, the distance is d - speed. */
  lemma AdvanceDistance(px: real, py: real, tx: real, ty: real, speed: real, sqrt: real -> real,
                        d: real, nx: real, ny: real)
    requires IsSqrt(sqrt) && 0.0 < speed <= d
    requires d == sqrt(SquaredDistance(tx, ty, px, py))
    requires nx == px + ((tx - px) / d) * speed && ny == py + ((ty - py) / d) * speed
    ensures sqrt(SquaredDistance(tx, ty, nx, ny)) == d - speed
  {
    assert d * d == SquaredDistance(tx, ty, px, py);
    StepClosesDistance(px, py, tx, ty, speed, d);
    SqrtOfSquare(sqrt, SquaredDistance(tx, ty, nx, ny), d - speed);
  }

  /** One homing step from (px, py) toward the target (tx, ty): it reaches the target when
      it is closer than its speed; otherwise it moves exactly `speed` toward it. */
  function Home(px: real, py: real, tx: real, ty: real, speed: real, sqrt: real -> real): (r: Step)
    requires 0.0 < speed
  {
    var distance := sqrt(SquaredDistance(tx, ty, px, py));
    if distance < speed then Strike
    else Advance(px + ((tx - px) / distance) * speed, py + ((ty - py) / distance) * speed)
  }

  /** Whatever the square root, the step reaches the target exactly when the distance it
      computes is below the speed, and a step that does not reach it moves on the line to
      the target and toward it. */
  lemma HomeHeadsForTarget(px: real, py: real, tx: real, ty: real, speed: real, sqrt: real -> real)
    requires 0.0 < speed
    ensures var r := Home(px, py, tx, ty, speed, sqrt);
      && (r.Strike? <==> sqrt(SquaredDistance(tx, ty, px, py)) < speed)
      && (r.Advance? ==> (r.x - px) * (ty - py) == (r.y - py) * (tx - px))
      && (r.Advance? ==> 0.0 <= (r.x - px) * (tx - px) + (r.y - py) * (ty - py))
  {
  }

  /** With a true square root, the step reaches the target exactly when the squared
      distance is below the squared speed. */
  lemma HomeStrikes(px: real, py: real, tx: real, ty: real, speed: real, sqrt: real -> real)
    requires IsSqrt(sqrt) && 0.0 < speed
    ensures Home(px, py, tx, ty, speed, sqrt).Strike? <==> SquaredDistance(tx, ty, px, py) < speed * speed
  {
    CloserThanSpeed(sqrt, SquaredDistance(tx, ty, px, py), speed);
  }

  /** A step that does not reach the target ends exactly `speed` closer to it. */
  lemma HomeAdvances(px: real, py: real, tx: real, ty: real, speed: real, sqrt: real -> real)
    requires IsSqrt(sqrt) && 0.0 < speed
    ensures var r := Home(px, py, tx, ty, speed, sqrt);
      r.Advance? ==> sqrt(SquaredDistance(tx, ty, r.x, r.y)) == sqrt(SquaredDistance(tx, ty, px, py)) - speed
  {
    var r := Home(px, py, tx, ty, speed, sqrt);
    if r.Advance? {
      var d := sqrt(SquaredDistance(tx, ty, px, py));
      AdvanceDistance(px, py, tx, ty, speed, sqrt, d, r.x, r.y);
    }
  }

  /** Whether a projectile chasing a target that stands still reaches it within k ticks. */
  predicate StrikesWithin(px: real, py: real, tx: real, ty: real, speed: real, sqrt: real -> real, k: nat)
    requires 0.0 < speed
    decreases k
  {
    k > 0 &&
    match Home(px, py, tx, ty, speed, sqrt)
    case Strike => true
    case Advance(nx, ny) => StrikesWithin(nx, ny, tx, ty, speed, sqrt, k - 1)
  }

  /** Homing always succeeds against a stationary target: from distance d the projectile
      reaches it within any k ticks with d < k * speed, that is within floor(d / speed) + 1. */
  lemma {:induction false} HomingReachesTarget(px: real, py: real, tx: real, ty: real, speed: real,
                                               sqrt: real -> real, k: nat)
    requires IsSqrt(sqrt) && 0.0 < speed
    requires sqrt(SquaredDistance(tx, ty, px, py)) < k as real * speed
    ensures StrikesWithin(px, py, tx, ty, speed, sqrt, k)
    decreases k
  {
    var d := sqrt(SquaredDistance(tx, ty, px, py));
    assert 0.0 <= d;
    match Home(px, py, tx, ty, speed, sqrt)
    case Strike =>
    case Advance(nx, ny) =>
      HomeAdvances(px, py, tx, ty, speed, sqrt);
      assert (k - 1) as real * speed == k as real * speed - speed;
      HomingReachesTarget(nx, ny, tx, ty, speed, sqrt, k - 1);
  }

  /** A projectile chasing an enemy. The target and the speed are never changed after the
      projectile is made. */
  class Projectile {
    var positionX: real        // centre X
    var positionY: real        // centre Y
    const speed: int := 10
    const target: Enemy?

    /** NewProjectile: at the given point, chasing the given enemy. */
    constructor (x: real, y: real, target: Enemy?)
      ensures positionX == x && positionY == y && this.target == target
    {
      positionX, positionY := x, y;
      this.target := target;
    }

    /** Moves the projectile toward its target and reports whether it reached it. A missing
        or dead target is never reached and the projectile stays put. */
    method Hit(sqrt: real -> real) returns (hit: bool)
      modifies this`positionX, this`positionY
      ensures target == null || !target.IsAlive() ==>
        !hit && positionX == old(positionX) && positionY == old(positionY)
      ensures target != null && target.IsAlive() ==>
        match Home(old(positionX), old(positionY), target.positionX, target.positionY, speed as real, sqrt)
        case Strike => hit && positionX == old(positionX) && positionY == old(positionY)
        case Advance(nx, ny) => !hit && positionX == nx && positionY == ny
    {
      if target == null || !target.IsAlive() {
        return false;
      }
      var dx := target.positionX - positionX;
      var dy := target.positionY - positionY;
      var distance := sqrt(SquaredDistance(target.positionX, target.positionY, positionX, positionY));
      if distance < speed as real {
        return true;
      }
      positionX := positionX + (dx / distance) * speed as real;
      positionY := positionY + (dy / distance) * speed as real;
      return false;
    }
  }

  /** Attack: a new projectile at the tower's centre, chasing the given enemy. */
  method Attack(t: Tower, enemy: Enemy) returns (p: Projectile)
    ensures fresh(p)
    ensures p.positionX == t.positionX && p.positionY == t.positionY
    ensures p.speed == 10 && p.target == enemy
  {
    p := new Projectile(t.positionX, t.positionY, enemy);
  }
}

// The tick-driven game (internal/game/game.go): wave spawning, enemy movement, escapes and
// kills, wave completion, tower fire, homing projectiles, and the edge-triggered mouse
// handling for the wave button, tower placement and restart.
module Game {
  import opened Config
  import opened Utils
  import opened GameMap
  import opened Entity
  import opened Hud

  // ---------------------------------------------------------------------------
  // Sequences
  // ---------------------------------------------------------------------------

  /** No element occurs twice: each is missing from the ones after it. */
  predicate Distinct<T(==)>(s: seq<T>)
  {
    forall i :: 0 <= i < |s| ==> s[i] !in s[i + 1..]
  }

  /** In a sequence without repeats, the element at `i` differs from every other one. */
  lemma DistinctApart<T>(s: seq<T>, i: nat)
    requires Distinct(s) && i < |s|
    ensures forall j :: 0 <= j < |s| && j != i ==> s[j] != s[i]
  {
    forall j | 0 <= j < |s| && j != i
      ensures s[j] != s[i]
    {
      if i < j {
        assert s[j] == s[i + 1..][j - i - 1];
      } else {
        assert s[i] == s[j + 1..][i - j - 1];
      }
    }
  }

  /** Appending a new element keeps a sequence free of repeats. */
  lemma DistinctAppend<T>(s: seq<T>, x: T)
    requires Distinct(s) && x !in s
    ensures Distinct(s + [x])
  {
    forall i | 0 <= i < |s| + 1
      ensures (s + [x])[i] !in (s + [x])[i + 1..]
    {
      if i < |s| {
        assert (s + [x])[i + 1..] == s[i + 1..] + [x];
        assert s[i] in s;
      } else {
        assert (s + [x])[i + 1..] == [];
      }
    }
  }

  /** Joining two sequences without repeats and without common elements gives one without
      repeats. */
  lemma DistinctConcat<T>(s: seq<T>, t: seq<T>)
    requires Distinct(s) && Distinct(t) && forall x :: x in s ==> x !in t
    ensures Distinct(s + t)
  {
    forall i | 0 <= i < |s + t|
      ensures (s + t)[i] !in (s + t)[i + 1..]
    {
      if i < |s| {
        assert (s + t)[i + 1..] == s[i + 1..] + t;
        assert s[i] in s;
      } else {
        assert (s + t)[i + 1..] == t[i - |s| + 1..];
        assert (s + t)[i] == t[i - |s|];
      }
    }
  }

  /** The elements among the first `n` of `s` whose flag in `keep` is set, in their
      original order. */
  function FilterUpTo<T>(s: seq<T>, keep: seq<bool>, n: nat): (r: seq<T>)
    requires |s| == |keep| && n <= |s|
    ensures |r| <= n
  {
    if n == 0 then []
    else FilterUpTo(s, keep, n - 1) + (if keep[n - 1] then [s[n - 1]] else [])
  }

  /** The elements of `s` whose flag in `keep` is set, in their original order. */
  function Filter<T>(s: seq<T>, keep: seq<bool>): (r: seq<T>)
    requires |s| == |keep|
    ensures |r| <= |s|
  {
    FilterUpTo(s, keep, |s|)
  }

  /** Filtering only drops elements. */
  lemma {:induction false} FilterSubset<T>(s: seq<T>, keep: seq<bool>, n: nat)
    requires |s| == |keep| && n <= |s|
    ensures forall x :: x in FilterUpTo(s, keep, n) ==> x in s[..n]
  {
    if n > 0 {
      FilterSubset(s, keep, n - 1);
      assert forall x :: x in s[..n - 1] ==> x in s[..n];
    }
  }

  /** Filtering keeps elements apart. */
  lemma {:induction false} FilterDistinct<T>(s: seq<T>, keep: seq<bool>, n: nat)
    requires |s| == |keep| && n <= |s| && Distinct(s)
    ensures Distinct(FilterUpTo(s, keep, n))
  {
    if n > 0 {
      FilterDistinct(s, keep, n - 1);
      FilterSubset(s, keep, n - 1);
      DistinctApart(s, n - 1);
      assert s[n - 1] !in s[..n - 1];
      if keep[n - 1] {
        DistinctAppend(FilterUpTo(s, keep, n - 1), s[n - 1]);
      }
    }
  }

  /** Filtering a list of distinct elements gives distinct elements, all from the list. */
  lemma FilterWithin<T>(s: seq<T>, keep: seq<bool>)
    requires |s| == |keep| && Distinct(s)
    ensures Distinct(Filter(s, keep))
    ensures forall x :: x in Filter(s, keep) ==> x in s
  {
    FilterDistinct(s, keep, |s|);
    FilterSubset(s, keep, |s|);
    assert s[..|s|] == s;
  }

  // ---------------------------------------------------------------------------
  // Enemies: what one tick does to each of them
  // ---------------------------------------------------------------------------

  /** What happens to an enemy in one tick of an active wave. */
  datatype Fate = Killed | Escaped | Marching

  /** A dead enemy is counted as killed; a living one past the last segment escapes; any
      other marches on. */
  function FateOf(life: int, pathIndex: nat, pathLength: int): Fate
  {
    if life <= 0 then Killed
    else if pathIndex >= pathLength then Escaped
    else Marching
  }

  function Fates(es: seq<Enemy>, pathLength: int): (r: seq<Fate>)
    reads es
    ensures |r| == |es|
    ensures forall i :: 0 <= i < |es| ==> r[i] == FateOf(es[i].life, es[i].currentPathIndex, pathLength)
  {
    if es == [] then [] else [FateOf(es[0].life, es[0].currentPathIndex, pathLength)] + Fates(es[1..], pathLength)
  }

  function MarchFlags(fs: seq<Fate>): (r: seq<bool>)
    ensures |r| == |fs|
    ensures forall i :: 0 <= i < |fs| ==> (r[i] <==> fs[i] == Marching)
  {
    if fs == [] then [] else [fs[0] == Marching] + MarchFlags(fs[1..])
  }

  /** How many of the first `n` entries of `fs` are `f`. */
  function CountUpTo(fs: seq<Fate>, f: Fate, n: nat): (r: nat)
    requires n <= |fs|
    ensures r <= n
  {
    if n == 0 then 0 else CountUpTo(fs, f, n - 1) + (if fs[n - 1] == f then 1 else 0)
  }

  /** How many entries of `fs` are `f`. */
  function Count(fs: seq<Fate>, f: Fate): (r: nat)
    ensures r <= |fs|
  {
    CountUpTo(fs, f, |fs|)
  }

  /** Every enemy is killed, escapes or marches, exactly one of the three. */
  lemma {:induction false} FatesPartition(fs: seq<Fate>, n: nat)
    requires n <= |fs|
    ensures CountUpTo(fs, Killed, n) + CountUpTo(fs, Escaped, n) + CountUpTo(fs, Marching, n) == n
  {
    if n > 0 {
      FatesPartition(fs, n - 1);
    }
  }

  /** Decides an enemy's fate for this tick, and moves it along the path when it marches
      on; its hit points are untouched. */
  method March(enemy: Enemy, m: Map) returns (fate: Fate)
    modifies enemy`positionX, enemy`positionY, enemy`currentPathIndex
    ensures fate == FateOf(old(enemy.life), old(enemy.currentPathIndex), |m|)
    ensures fate == Marching ==> enemy.Motion() == PathStep(old(enemy.Motion()), m)
    ensures fate != Marching ==> enemy.Motion() == old(enemy.Motion())
  {
    if enemy.IsAlive() {
      if enemy.currentPathIndex >= |m| {
        fate := Escaped;
      } else {
        enemy.FollowPath(m);
        fate := Marching;
      }
    } else {
      fate := Killed;
    }
  }

  /** Books one enemy's fate: one that marches on is kept at the end of the list, one that
      escaped or was killed adds to its count. */
  method Book(fate: Fate, enemy: Enemy, alive: seq<Enemy>, escaped: nat, killed: nat)
    returns (alive': seq<Enemy>, escaped': nat, killed': nat)
    ensures alive' == alive + (if fate == Marching then [enemy] else [])
    ensures escaped' == escaped + (if fate == Escaped then 1 else 0)
    ensures killed' == killed + (if fate == Killed then 1 else 0)
  {
    alive', escaped', killed' := alive, escaped, killed;
    match fate {
      case Escaped => escaped' := escaped + 1;
      case Marching => alive' := alive + [enemy];
      case Killed => killed' := killed + 1;
    }
  }

  /** Booking the fate of enemy `i` extends the kept list and the counts over the first `i`
      enemies to the first `i + 1`. */
  lemma BookStep(es: seq<Enemy>, fs: seq<Fate>, i: nat, n: nat, alive: seq<Enemy>, escaped: nat, killed: nat,
                 alive': seq<Enemy>, escaped': nat, killed': nat)
    requires |es| == |fs| && i < |es| && n == i + 1
    requires alive == FilterUpTo(es, MarchFlags(fs), i)
    requires escaped == CountUpTo(fs, Escaped, i) && killed == CountUpTo(fs, Killed, i)
    requires alive' == alive + (if fs[i] == Marching then [es[i]] else [])
    requires escaped' == escaped + (if fs[i] == Escaped then 1 else 0)
    requires killed' == killed + (if fs[i] == Killed then 1 else 0)
    ensures alive' == FilterUpTo(es, MarchFlags(fs), n)
    ensures escaped' == CountUpTo(fs, Escaped, n) && killed' == CountUpTo(fs, Killed, n)
  {
    var flags := MarchFlags(fs);
    assert n - 1 == i;
    if fs[i] == Marching {
      assert flags[i];
      assert FilterUpTo(es, flags, n) == alive + [es[i]];
    } else {
      assert !flags[i];
      assert FilterUpTo(es, flags, n) == alive;
    }
  }

  /** Marches enemy `i` of a list of distinct enemies; the others stay where they are. */
  method MarchAt(es: seq<Enemy>, i: nat, m: Map) returns (fate: Fate)
    requires Distinct(es) && i < |es|
    modifies {es[i]}`positionX, {es[i]}`positionY, {es[i]}`currentPathIndex
    ensures fate == FateOf(es[i].life, old(es[i].currentPathIndex), |m|)
    ensures forall j :: 0 <= j < |es| ==>
      es[j].Motion() == (if j == i && fate == Marching then PathStep(old(es[j].Motion()), m) else old(es[j].Motion()))
  {
    DistinctApart(es, i);
    fate := March(es[i], m);
  }

  /** One tick of the wave for every enemy in list order: the ones that march on are kept,
      in order; the ones killed and the ones escaped are counted. */
  method MarchAll(es: seq<Enemy>, m: Map) returns (alive: seq<Enemy>, escaped: nat, killed: nat)
    requires Distinct(es)
    modifies es
    ensures var fs := old(Fates(es, |m|));
      && alive == Filter(es, MarchFlags(fs))
      && escaped == Count(fs, Escaped) && killed == Count(fs, Killed)
    ensures forall j :: 0 <= j < |es| ==>
      && es[j].life == old(es[j].life)
      && es[j].Motion() == (if FateOf(old(es[j].life), old(es[j].currentPathIndex), |m|) == Marching
                            then PathStep(old(es[j].Motion()), m) else old(es[j].Motion()))
  {
    ghost var fs := Fates(es, |m|);
    alive, escaped, killed := [], 0, 0;
    var i := 0;
    while i < |es|
      invariant 0 <= i <= |es|
      invariant alive == FilterUpTo(es, MarchFlags(fs), i)
      invariant escaped == CountUpTo(fs, Escaped, i) && killed == CountUpTo(fs, Killed, i)
      invariant forall j :: 0 <= j < |es| ==>
        && es[j].life == old(es[j].life)
        && es[j].Motion() == (if j < i && fs[j] == Marching then PathStep(old(es[j].Motion()), m) else old(es[j].Motion()))
    {
      var fate := MarchAt(es, i, m);
      assert fate == fs[i];
      var alive', escaped', killed' := Book(fate, es[i], alive, escaped, killed);
      var next := i + 1;
      BookStep(es, fs, i, next, alive, escaped, killed, alive', escaped', killed');
      alive, escaped, killed := alive', escaped', killed';
      i := next;
    }
  }

  // ---------------------------------------------------------------------------
  // Towers: who fires at whom
  // ---------------------------------------------------------------------------

  /** What a tower sees of an enemy: where its centre is and its hit points. */
  datatype Sighting = Sighting(x: real, y: real, life: int)

  function SightingOf(e: Enemy): Sighting
    reads e
  {
    Sighting(e.positionX, e.positionY, e.life)
  }

  /** What the towers see of the enemies, in list order. */
  function Sightings(es: seq<Enemy>): (r: seq<Sighting>)
    reads es
    ensures |r| == |es|
    ensures forall i :: 0 <= i < |es| ==> r[i] == SightingOf(es[i])
  {
    if es == [] then [] else [SightingOf(es[0])] + Sightings(es[1..])
  }

  /** Whether the tower would shoot at an enemy it sees so: one that is alive and whose
      centre is within range. */
  predicate Shootable(t: Tower, s: Sighting)
  {
    SquaredDistance(t.positionX, t.positionY, s.x, s.y) <= t.range * t.range && s.life > 0
  }

  /** The index of the first enemy from `from` on that the tower can shoot at, or |ss|
      when there is none. */
  function FirstTargetFrom(t: Tower, ss: seq<Sighting>, from: nat): (r: nat)
    requires from <= |ss|
    ensures from <= r <= |ss|
    ensures r < |ss| ==> Shootable(t, ss[r])
    ensures forall j :: from <= j < r ==> !Shootable(t, ss[j])
    decreases |ss| - from
  {
    if from == |ss| then |ss|
    else if Shootable(t, ss[from]) then from
    else FirstTargetFrom(t, ss, from + 1)
  }

  /** The index of the first enemy in list order that the tower can shoot at, or |ss|. */
  function FirstTarget(t: Tower, ss: seq<Sighting>): (r: nat)
    ensures r <= |ss|
  {
    FirstTargetFrom(t, ss, 0)
  }

  /** A tower fires this tick when it has reloaded and some enemy can be shot. */
  predicate Fires(t: Tower, ss: seq<Sighting>, tick: int)
    requires t.fireRate != 0.0
  {
    CanFire(t, tick) && FirstTarget(t, ss) < |ss|
  }

  /** The tower after this tick: its last fire time is the tick exactly when it fired. */
  function Reloaded(t: Tower, ss: seq<Sighting>, tick: int): (r: Tower)
    requires t.fireRate != 0.0
    ensures r.positionX == t.positionX && r.positionY == t.positionY && r.range == t.range
    ensures r.damage == t.damage && r.fireRate == t.fireRate
    ensures r.lastFireTime == (if Fires(t, ss, tick) then tick else t.lastFireTime)
  {
    if Fires(t, ss, tick) then t.(lastFireTime := tick) else t
  }

  /** A shot fired this tick: by which tower, at the enemy with which index. */
  datatype Aim = Aim(tower: Tower, target: nat)

  /** The projectile a shot puts in play: at the tower's centre, chasing the target. */
  predicate Launched(p: Projectile, a: Aim, es: seq<Enemy>)
    reads p
  {
    a.target < |es| && p.positionX == a.tower.positionX && p.positionY == a.tower.positionY
    && p.target == es[a.target]
  }

  /** The projectiles `ps` are the ones the shots `v` put in play, one for one. */
  predicate LaunchedAll(ps: seq<Projectile>, v: seq<Aim>, es: seq<Enemy>)
    reads ps
  {
    |ps| == |v| && forall k :: 0 <= k < |v| ==> Launched(ps[k], v[k], es)
  }

  lemma LaunchedAppend(ps: seq<Projectile>, v: seq<Aim>, es: seq<Enemy>, p: Projectile, a: Aim)
    requires LaunchedAll(ps, v, es) && Launched(p, a, es)
    ensures LaunchedAll(ps + [p], v + [a], es)
  {
  }

  predicate Armed(ts: seq<Tower>)
  {
    forall t :: t in ts ==> t.fireRate != 0.0
  }

  /** The shots the first `n` towers fire this tick, in tower order: one per firing tower,
      at its first target. */
  function VolleyUpTo(ts: seq<Tower>, ss: seq<Sighting>, tick: int, n: nat): (r: seq<Aim>)
    requires Armed(ts) && n <= |ts|
    ensures |r| <= n
  {
    if n == 0 then []
    else
      VolleyUpTo(ts, ss, tick, n - 1)
      + (if Fires(ts[n - 1], ss, tick) then [Aim(ts[n - 1], FirstTarget(ts[n - 1], ss))] else [])
  }

  /** The shots all towers fire this tick. */
  function Volley(ts: seq<Tower>, ss: seq<Sighting>, tick: int): (r: seq<Aim>)
    requires Armed(ts)
    ensures |r| <= |ts|
  {
    VolleyUpTo(ts, ss, tick, |ts|)
  }

  /** Every shot of the volley comes from a tower that fires, and goes to that tower's
      first target: an enemy that is alive and within its range. */
  lemma {:induction false} VolleyAims(ts: seq<Tower>, ss: seq<Sighting>, tick: int, n: nat)
    requires Armed(ts) && n <= |ts|
    ensures forall a :: a in VolleyUpTo(ts, ss, tick, n) ==>
      && a.tower in ts[..n] && Fires(a.tower, ss, tick)
      && a.target == FirstTarget(a.tower, ss) < |ss| && Shootable(a.tower, ss[a.target])
    decreases n
  {
    if n > 0 {
      VolleyAims(ts, ss, tick, n - 1);
      assert ts[..n - 1] <= ts[..n];
    }
  }

  /** The number of towers among the first `n` that fire this tick. */
  function FiringUpTo(ts: seq<Tower>, ss: seq<Sighting>, tick: int, n: nat): nat
    requires Armed(ts) && n <= |ts|
  {
    if n == 0 then 0 else FiringUpTo(ts, ss, tick, n - 1) + (if Fires(ts[n - 1], ss, tick) then 1 else 0)
  }

  /** Each firing tower fires exactly once: the volley has one shot per firing tower. */
  lemma {:induction false} VolleySize(ts: seq<Tower>, ss: seq<Sighting>, tick: int, n: nat)
    requires Armed(ts) && n <= |ts|
    ensures |VolleyUpTo(ts, ss, tick, n)| == FiringUpTo(ts, ss, tick, n)
    decreases n
  {
    if n > 0 {
      VolleySize(ts, ss, tick, n - 1);
    }
  }

  /** A tower's scan of the enemies in list order, stopping at the first that is alive and
      within its range; |es| when there is none. */
  method FindTarget(t: Tower, es: seq<Enemy>, ghost ss: seq<Sighting>) returns (j: nat)
    requires ss == Sightings(es)
    ensures j == FirstTarget(t, ss)
  {
    j := 0;
    while j < |es| && !(IsEnemyInRange(t, es[j]) && es[j].IsAlive())
      invariant 0 <= j <= |es|
      invariant FirstTargetFrom(t, ss, j) == FirstTarget(t, ss)
    {
      j := j + 1;
    }
  }

  /** One tower's turn (the body of the towers loop): once reloaded it fires at the first
      enemy in list order that is alive and within its range, and records the tick; with
      nothing to shoot at it neither fires nor reloads. */
  method FireOne(t: Tower, es: seq<Enemy>, tick: int, ghost ss: seq<Sighting>)
    returns (t': Tower, p: Projectile?)
    requires t.fireRate != 0.0 && ss == Sightings(es)
    ensures t' == Reloaded(t, ss, tick)
    ensures p != null <==> Fires(t, ss, tick)
    ensures p != null ==> fresh(p) && Launched(p, Aim(t, FirstTarget(t, ss)), es)
  {
    t', p := t, null;
    if CanFire(t, tick) {
      var j := FindTarget(t, es, ss);
      if j < |es| {
        p := Attack(t, es[j]);
        t' := t.(lastFireTime := tick);
      }
    }
  }

  /** The towers loop: every tower in list order takes its turn; yields the towers after
      it and the projectiles they put in play, which are the tick's volley. */
  method FireAll(ts: seq<Tower>, es: seq<Enemy>, tick: int, ghost ss: seq<Sighting>)
    returns (ts': seq<Tower>, launched: seq<Projectile>)
    requires Armed(ts) && ss == Sightings(es)
    ensures |ts'| == |ts| && forall i :: 0 <= i < |ts| ==> ts'[i] == Reloaded(ts[i], ss, tick)
    ensures LaunchedAll(launched, Volley(ts, ss, tick), es)
    ensures Distinct(launched) && forall p :: p in launched ==> fresh(p)
  {
    ts', launched := ts, [];
    var i := 0;
    while i < |ts|
      invariant 0 <= i <= |ts| == |ts'|
      invariant forall j :: 0 <= j < |ts| ==> ts'[j] == if j < i then Reloaded(ts[j], ss, tick) else ts[j]
      invariant LaunchedAll(launched, VolleyUpTo(ts, ss, tick, i), es)
      invariant Distinct(launched) && forall p :: p in launched ==> fresh(p)
    {
      var t, p := FireOne(ts[i], es, tick, ss);
      ts' := ts'[i := t];
      if p != null {
        LaunchedAppend(launched, VolleyUpTo(ts, ss, tick, i), es, p, Aim(ts[i], FirstTarget(ts[i], ss)));
        DistinctAppend(launched, p);
        launched := launched + [p];
      }
      i := i + 1;
    }
  }

  // ---------------------------------------------------------------------------
  // Projectiles: resolving one tick of flight
  // ---------------------------------------------------------------------------

  /** A projectile's position and its target's position at the start of the phase. */
  datatype Shot = Shot(x: real, y: real, target: Enemy?, tx: real, ty: real)

  /** What became of a projectile: dropped for want of a living target, struck its
      target, or flew on to (x, y). */
  datatype Outcome = Dropped | Struck | Flying(x: real, y: real)

  function ShotOf(p: Projectile): Shot
    reads p, p.target
  {
    if p.target == null then Shot(p.positionX, p.positionY, null, 0.0, 0.0)
    else Shot(p.positionX, p.positionY, p.target, p.target.positionX, p.target.positionY)
  }

  /** A target's hit points; a missing target counts as dead. */
  function LifeOf(e: Enemy?): int
    reads e
  {
    if e == null then 0 else e.life
  }

  /** The enemies the projectiles are chasing (with null for a projectile without one). */
  function Targets(ps: seq<Projectile>): (r: set<Enemy?>)
    ensures forall i :: 0 <= i < |ps| ==> ps[i].target in r
  {
    if ps == [] then {} else {ps[0].target} + Targets(ps[1..])
  }

  function Shots(ps: seq<Projectile>): (r: seq<Shot>)
    reads ps, Targets(ps)
    ensures |r| == |ps|
    ensures forall i :: 0 <= i < |ps| ==> r[i] == ShotOf(ps[i])
  {
    if ps == [] then [] else [ShotOf(ps[0])] + Shots(ps[1..])
  }

  /** The hit points of every enemy some projectile is chasing. */
  function LivesOf(ps: seq<Projectile>): (r: map<Enemy?, int>)
    reads Targets(ps)
    ensures r.Keys == Targets(ps) - {null}
  {
    map e | e in Targets(ps) && e != null :: e.life
  }

  /** One projectile's turn, given its shot and its target's hit points at that moment: it
      is dropped when the target is missing or dead; otherwise it strikes when closer than
      its speed of 10, or moves 10 toward the target. */
  function Fly(s: Shot, life: int, sqrt: real -> real): (r: Outcome)
    ensures r.Dropped? <==> s.target == null || life <= 0
  {
    if s.target == null || life <= 0 then Dropped
    else
      match Home(s.x, s.y, s.tx, s.ty, 10.0, sqrt)
      case Strike => Struck
      case Advance(nx, ny) => Flying(nx, ny)
  }

  /** A projectile that flies on is exactly 10 closer to its target. */
  lemma FlyCloses(s: Shot, life: int, sqrt: real -> real)
    requires IsSqrt(sqrt)
    ensures var r := Fly(s, life, sqrt);
      r.Flying? ==>
        sqrt(SquaredDistance(s.tx, s.ty, r.x, r.y)) == sqrt(SquaredDistance(s.tx, s.ty, s.x, s.y)) - 10.0
  {
    HomeAdvances(s.x, s.y, s.tx, s.ty, 10.0, sqrt);
  }

  /** A projectile chasing a living target strikes it exactly when it is closer than its
      speed of 10. */
  lemma FlyStrikes(s: Shot, life: int, sqrt: real -> real)
    requires IsSqrt(sqrt)
    ensures Fly(s, life, sqrt).Struck?
      <==> s.target != null && 0 < life && SquaredDistance(s.tx, s.ty, s.x, s.y) < 100.0
  {
    HomeStrikes(s.x, s.y, s.tx, s.ty, 10.0, sqrt);
  }

  /** The hit points `lives` records for the target of `s`; 0 when there is none. */
  function LifeIn(s: Shot, lives: map<Enemy?, int>): int
  {
    if s.target != null && s.target in lives then lives[s.target] else 0
  }

  /** The hit points after outcome `o` of shot `s`: a strike takes 10 from its target. */
  function After(s: Shot, o: Outcome, lives: map<Enemy?, int>): (r: map<Enemy?, int>)
    ensures r.Keys == lives.Keys
  {
    if o.Struck? && s.target in lives then lives[s.target := Damaged(lives[s.target], 10)] else lives
  }

  /** The first `n` projectiles act one after another, each seeing the hit points the ones
      before it left. Yields their outcomes and the hit points after them. */
  function ResolveUpTo(shots: seq<Shot>, lives: map<Enemy?, int>, n: nat, sqrt: real -> real)
    : (r: (seq<Outcome>, map<Enemy?, int>))
    requires n <= |shots|
    ensures |r.0| == n && r.1.Keys == lives.Keys
  {
    if n == 0 then ([], lives)
    else
      var before := ResolveUpTo(shots, lives, n - 1, sqrt);
      var o := Fly(shots[n - 1], LifeIn(shots[n - 1], before.1), sqrt);
      (before.0 + [o], After(shots[n - 1], o, before.1))
  }

  /** All projectiles take their turn, in list order. */
  function Resolve(shots: seq<Shot>, lives: map<Enemy?, int>, sqrt: real -> real)
    : (r: (seq<Outcome>, map<Enemy?, int>))
    ensures |r.0| == |shots| && r.1.Keys == lives.Keys
  {
    ResolveUpTo(shots, lives, |shots|, sqrt)
  }

  /** A projectile's outcome does not depend on the ones after it: resolving the first `n`
      gives a prefix of the outcomes of resolving the first `m`. */
  lemma {:induction false} ResolvePrefix(shots: seq<Shot>, lives: map<Enemy?, int>, n: nat, m: nat,
                                         sqrt: real -> real)
    requires n <= m <= |shots|
    ensures ResolveUpTo(shots, lives, n, sqrt).0 == ResolveUpTo(shots, lives, m, sqrt).0[..n]
    decreases m
  {
    if n < m {
      ResolvePrefix(shots, lives, n, m - 1, sqrt);
      var before := ResolveUpTo(shots, lives, m - 1, sqrt).0;
      assert ResolveUpTo(shots, lives, m, sqrt).0[..m - 1] == before;
    }
  }

  /** Resolving one more projectile: its outcome is the next one of the whole phase, and it
      books its strike on the hit points the ones before it left. */
  lemma ResolveStep(shots: seq<Shot>, lives: map<Enemy?, int>, os: seq<Outcome>, cur: map<Enemy?, int>,
                    i: nat, n: nat, sqrt: real -> real)
    requires i < |shots| && n == i + 1
    requires os == Resolve(shots, lives, sqrt).0 && ResolveUpTo(shots, lives, i, sqrt) == (os[..i], cur)
    ensures os[i] == Fly(shots[i], LifeIn(shots[i], cur), sqrt)
    ensures ResolveUpTo(shots, lives, n, sqrt) == (os[..n], After(shots[i], os[i], cur))
  {
    ResolvePrefix(shots, lives, n, |shots|, sqrt);
    assert os[i] == os[..n][i];
  }

  /** How many of the first `n` outcomes are strikes on `e`. */
  function StrikesUpTo(shots: seq<Shot>, os: seq<Outcome>, e: Enemy?, n: nat): nat
    requires n <= |shots| && n <= |os|
  {
    if n == 0 then 0
    else StrikesUpTo(shots, os, e, n - 1) + (if os[n - 1].Struck? && shots[n - 1].target == e then 1 else 0)
  }

  /** How many of the outcomes are strikes on `e`. */
  function StrikesOn(shots: seq<Shot>, os: seq<Outcome>, e: Enemy?): nat
    requires |shots| == |os|
  {
    StrikesUpTo(shots, os, e, |shots|)
  }

  lemma DamagedTwice(life: int, a: int, b: int)
    requires 0 <= a && 0 <= b
    ensures Damaged(Damaged(life, a), b) == Damaged(life, a + b)
  {
  }

  /** Strikes counted over a prefix depend only on that prefix of the outcomes. */
  lemma {:induction false} StrikesPrefix(shots: seq<Shot>, os: seq<Outcome>, os': seq<Outcome>, e: Enemy?, n: nat)
    requires n <= |shots| && n <= |os| && n <= |os'| && os[..n] == os'[..n]
    ensures StrikesUpTo(shots, os, e, n) == StrikesUpTo(shots, os', e, n)
    decreases n
  {
    if n > 0 {
      assert os[n - 1] == os[..n][n - 1] == os'[n - 1];
      assert os[..n - 1] == os[..n][..n - 1];
      assert os'[..n - 1] == os'[..n][..n - 1];
      StrikesPrefix(shots, os, os', e, n - 1);
    }
  }

  /** One outcome's effect on the hit points of `e`: 10 less for a strike on it. */
  lemma AfterOn(s: Shot, o: Outcome, lives: map<Enemy?, int>, e: Enemy?)
    requires e in lives && 0 <= lives[e]
    ensures After(s, o, lives)[e] == Damaged(lives[e], if o.Struck? && s.target == e then 10 else 0)
  {
  }

  lemma {:induction false} ResolveDamageUpTo(shots: seq<Shot>, lives: map<Enemy?, int>, n: nat,
                                             sqrt: real -> real, e: Enemy?)
    requires n <= |shots| && e in lives && 0 <= lives[e]
    ensures var r := ResolveUpTo(shots, lives, n, sqrt);
      r.1[e] == Damaged(lives[e], 10 * StrikesUpTo(shots, r.0, e, n))
    decreases n
  {
    if n > 0 {
      var before := ResolveUpTo(shots, lives, n - 1, sqrt);
      var r := ResolveUpTo(shots, lives, n, sqrt);
      var o := Fly(shots[n - 1], LifeIn(shots[n - 1], before.1), sqrt);
      assert r == (before.0 + [o], After(shots[n - 1], o, before.1));
      ResolveDamageUpTo(shots, lives, n - 1, sqrt, e);
      assert r.0[..n - 1] == before.0[..n - 1];
      StrikesPrefix(shots, before.0, r.0, e, n - 1);
      AfterOn(shots[n - 1], o, before.1, e);
      DamagedTwice(lives[e], 10 * StrikesUpTo(shots, before.0, e, n - 1),
                   if o.Struck? && shots[n - 1].target == e then 10 else 0);
    }
  }

  /** Every strike takes 10 hit points from its target, down to zero: an enemy ends the
      phase with its hit points less 10 for each projectile that struck it. */
  lemma ResolveDamage(shots: seq<Shot>, lives: map<Enemy?, int>, sqrt: real -> real, e: Enemy?)
    requires e in lives && 0 <= lives[e]
    ensures var r := Resolve(shots, lives, sqrt);
      r.1[e] == Damaged(lives[e], 10 * StrikesOn(shots, r.0, e))
  {
    ResolveDamageUpTo(shots, lives, |shots|, sqrt, e);
  }

  function FlyingFlags(os: seq<Outcome>): (r: seq<bool>)
    ensures |r| == |os|
    ensures forall i :: 0 <= i < |os| ==> (r[i] <==> os[i].Flying?)
  {
    if os == [] then [] else [os[0].Flying?] + FlyingFlags(os[1..])
  }

  /** One projectile's turn in the game loop: it homes in; a strike on a living target
      takes 10 hit points; it stays in play only while it flies on toward a living target. */
  method FlyOne(p: Projectile, sqrt: real -> real, ghost o: Outcome) returns (keep: bool)
    requires o == Fly(ShotOf(p), LifeOf(p.target), sqrt)
    modifies p`positionX, p`positionY, {p.target}`life
    ensures keep == o.Flying?
    ensures o.Flying? ==> p.positionX == o.x && p.positionY == o.y
    ensures !o.Flying? ==> p.positionX == old(p.positionX) && p.positionY == old(p.positionY)
    ensures LifeOf(p.target) == if o.Struck? then Damaged(old(LifeOf(p.target)), 10) else old(LifeOf(p.target))
  {
    var hit := p.Hit(sqrt);
    if hit {
      if p.target != null && p.target.IsAlive() {
        p.target.TakeDamage(10);
      }
      keep := false;
    } else {
      keep := p.target != null && p.target.IsAlive();
    }
  }

  /** The turn of the `i`-th projectile, seen from the whole list: only that projectile
      moves, and the recorded hit points `lives` stay those of the enemies once its
      strike, if any, is booked. */
  method FlyAt(ps: seq<Projectile>, i: nat, sqrt: real -> real, ghost s: Shot, ghost o: Outcome,
               ghost lives: map<Enemy?, int>) returns (keep: bool)
    requires Distinct(ps) && i < |ps| && s == ShotOf(ps[i])
    requires s.target != null ==> s.target in lives
    requires o == Fly(s, LifeIn(s, lives), sqrt)
    requires forall e :: e in lives ==> e != null && e.life == lives[e]
    modifies {ps[i]}`positionX, {ps[i]}`positionY, {ps[i].target}`life
    ensures keep == o.Flying?
    ensures forall j :: 0 <= j < |ps| ==>
      if j == i && o.Flying? then ps[j].positionX == o.x && ps[j].positionY == o.y
      else ps[j].positionX == old(ps[j].positionX) && ps[j].positionY == old(ps[j].positionY)
    ensures forall e :: e in After(s, o, lives) ==> e != null && e.life == After(s, o, lives)[e]
  {
    DistinctApart(ps, i);
    var p := ps[i];
    keep := FlyOne(p, sqrt, o);
    forall j | 0 <= j < |ps| && j != i
      ensures ps[j].positionX == old(ps[j].positionX) && ps[j].positionY == old(ps[j].positionY)
    {
      assert ps[j] != p;
    }
  }

  /** A projectile's turn extends the kept list over the first `i` projectiles to the first
      `i + 1`. */
  lemma KeepStep(ps: seq<Projectile>, flags: seq<bool>, i: nat, n: nat, active: seq<Projectile>,
                 keep: bool, active': seq<Projectile>)
    requires |ps| == |flags| && i < |ps| && n == i + 1
    requires active == FilterUpTo(ps, flags, i) && keep == flags[i]
    requires active' == active + (if keep then [ps[i]] else [])
    ensures active' == FilterUpTo(ps, flags, n)
  {
  }

  /** The projectile phase of a tick: every projectile takes its turn in list order; the
      ones still flying are kept in order, and the targets end with the hit points the
      strikes left them. */
  method FlyAll(ps: seq<Projectile>, sqrt: real -> real) returns (active: seq<Projectile>)
    requires Distinct(ps)
    modifies ps`positionX, ps`positionY, Targets(ps)`life
    ensures var r := old(Resolve(Shots(ps), LivesOf(ps), sqrt));
      && active == Filter(ps, FlyingFlags(r.0))
      && (forall e :: e in r.1 ==> e != null && e.life == r.1[e])
      && (forall j :: 0 <= j < |ps| ==>
            if r.0[j].Flying? then ps[j].positionX == r.0[j].x && ps[j].positionY == r.0[j].y
            else ps[j].positionX == old(ps[j].positionX) && ps[j].positionY == old(ps[j].positionY))
  {
    ghost var shots := Shots(ps);
    ghost var lives := LivesOf(ps);
    ghost var r := Resolve(shots, lives, sqrt);
    ghost var flags := FlyingFlags(r.0);
    ghost var cur := lives;
    active := [];
    var i := 0;
    while i < |ps|
      invariant 0 <= i <= |ps|
      invariant ResolveUpTo(shots, lives, i, sqrt) == (r.0[..i], cur)
      invariant forall e :: e in cur ==> e != null && e.life == cur[e]
      invariant active == FilterUpTo(ps, flags, i)
      invariant forall j :: 0 <= j < |ps| ==>
        if j < i && r.0[j].Flying? then ps[j].positionX == r.0[j].x && ps[j].positionY == r.0[j].y
        else ps[j].positionX == old(ps[j].positionX) && ps[j].positionY == old(ps[j].positionY)
    {
      assert ps[i].target != null ==> ps[i].target in cur;
      var next := i + 1;
      ResolveStep(shots, lives, r.0, cur, i, next, sqrt);
      var keep := FlyAt(ps, i, sqrt, shots[i], r.0[i], cur);
      KeepStep(ps, flags, i, next, active, keep, active + (if keep then [ps[i]] else []));
      active := active + (if keep then [ps[i]] else []);
      cur := After(shots[i], r.0[i], cur);
      i := next;
    }
    assert r.0[..|ps|] == r.0;
  }

  // ---------------------------------------------------------------------------
  // Waves and tower placement
  // ---------------------------------------------------------------------------

  /** Number of enemies in wave n, counting from 1: 3, 5, 7, ... */
  function WaveSize(n: int): (r: int)
    ensures n >= 1 ==> r >= 3
  {
    3 + (n - 1) * 2
  }

  /** Each wave brings two more enemies than the one before, and the preview 3 + 2w shown
      after wave w is the size of wave w + 1. */
  lemma WaveSizeGrows(w: int)
    ensures WaveSize(w + 1) == WaveSize(w) + 2
    ensures WaveSize(w + 1) == 3 + w * 2
  {
  }

  /** How long, in ticks, a placement error stays on screen. */
  const ErrorTicks: int := 120

  const HudAreaError: string := "Cannot place tower in HUD area!"
  const PathError: string := "Cannot place tower on path!"

  /** What a placement attempt at (x, y) does: build a tower, or refuse with a message. */
  datatype Placement = Placed(tower: Tower) | Rejected(message: string)

  /** A click in the HUD band is refused, as is one whose tower would touch the path;
      anywhere else a new tower is built. */
  function TryPlace(x: real, y: real, m: Map): (r: Placement)
    ensures r.Placed? <==> HUDHeight <= y && CanPlaceTower(x, y, m)
    ensures r.Placed? ==> r.tower == NewTower(x, y) && !IsPositionOnPath(x, y, m)
    ensures r.Rejected? ==> r.message != ""
    ensures r.Rejected? ==> (r.message == HudAreaError <==> y < HUDHeight)
  {
    if y < HUDHeight then Rejected(HudAreaError)
    else if CanPlaceTower(x, y, m) then Placed(NewTower(x, y))
    else Rejected(PathError)
  }

  /** Every square a placed tower covers is off the path. */
  lemma PlacedTowersClearPath(x: real, y: real, m: Map, px: real, py: real)
    requires TryPlace(x, y, m).Placed?
    requires x - TowerSize / 2.0 <= px <= x + TowerSize / 2.0
    requires y - TowerSize / 2.0 <= py <= y + TowerSize / 2.0
    ensures !IsPositionOnPath(px, py, m) && HUDHeight <= y
  {
    PlacedTowerClearsPath(x, y, m, px, py);
  }

  /** The Next Wave button lies inside the HUD band, so a click on it that does not start a
      wave never builds a tower there: the placement is refused with the HUD message. */
  lemma ButtonClickNeverBuilds(mx: int, my: int, m: Map)
    requires 620 <= mx <= 770 && 35 <= my <= 85
    ensures TryPlace(mx as real, my as real, m) == Rejected(HudAreaError)
  {
  }

  // ---------------------------------------------------------------------------
  // Mouse clicks and the error message
  // ---------------------------------------------------------------------------

  /** What a tick's mouse state asks the running game to do. */
  datatype Click = StartWave | PlaceAt | Ignore

  /** The running game's click rule: only a press that was not held on the previous tick
      acts; on the Next Wave button between waves it starts the next wave, anywhere else
      it places a tower while the limit is not reached. */
  function ClickAction(pressed: bool, wasPressed: bool, onButton: bool, waveActive: bool,
                       built: int, limit: int): (c: Click)
    ensures c != Ignore ==> pressed && !wasPressed
    ensures c == StartWave <==> pressed && !wasPressed && onButton && !waveActive
    ensures c == PlaceAt <==> pressed && !wasPressed && !(onButton && !waveActive) && built < limit
  {
    if pressed && !wasPressed then
      if onButton && !waveActive then StartWave
      else if built < limit then PlaceAt
      else Ignore
    else Ignore
  }

  /** Holding the button down acts once: over a run of ticks with the button pressed
      throughout, only the first can act. */
  lemma {:induction false} HeldClickActsOnce(presses: seq<bool>, wasPressed: bool, onButton: seq<bool>,
                                             waveActive: seq<bool>, built: seq<int>, limit: int)
    requires |presses| == |onButton| == |waveActive| == |built|
    requires forall k :: 0 <= k < |presses| ==> presses[k]
    ensures forall k :: 1 <= k < |presses| ==>
      ClickAction(presses[k], presses[k - 1], onButton[k], waveActive[k], built[k], limit) == Ignore
  {
    forall k | 1 <= k < |presses|
      ensures ClickAction(presses[k], presses[k - 1], onButton[k], waveActive[k], built[k], limit) == Ignore
    {
      assert presses[k - 1];
    }
  }

  /** One tick of the error-message countdown: a running timer goes down by one and the
      message is cleared as it reaches zero. */
  function Countdown(timer: int, message: string): (r: (int, string))
    ensures 0 <= timer ==> 0 <= r.0 <= timer
    ensures 0 < timer ==> r.0 == timer - 1
    ensures timer <= 0 ==> r == (timer, message)
    ensures 0 <= timer && (timer == 0 <==> message == "") ==> (r.0 == 0 <==> r.1 == "")
  {
    if timer > 0 then (timer - 1, if timer - 1 == 0 then "" else message) else (timer, message)
  }

  /** `n` ticks of the countdown. */
  function CountdownFor(timer: int, message: string, n: nat): (r: (int, string))
  {
    if n == 0 then (timer, message)
    else var r := CountdownFor(timer, message, n - 1); Countdown(r.0, r.1)
  }

  /** A message set with a timer of t ticks stays exactly t - 1 more ticks after the tick
      that set it: it is shown while fewer than t ticks have passed and cleared after. */
  lemma {:induction false} MessageShownFor(t: int, message: string, n: nat)
    requires 0 < t && message != ""
    ensures CountdownFor(t, message, n) == if n < t then (t - n, message) else (0, "")
  {
    if n > 0 {
      MessageShownFor(t, message, n - 1);
    }
  }

  /** Every enemy a projectile chases is one of `owned`. */
  lemma {:induction false} TargetsWithin(ps: seq<Projectile>, owned: set<object>)
    requires forall p :: p in ps ==> p.target != null && p.target in owned
    ensures forall e :: e in Targets(ps) ==> e != null && e in owned
  {
    if ps != [] {
      assert forall p :: p in ps[1..] ==> p in ps;
      TargetsWithin(ps[1..], owned);
    }
  }

  // ---------------------------------------------------------------------------
  // The game
  // ---------------------------------------------------------------------------

  class Game {
    // Set by NewGame and never written again.
    const maps: seq<Map>
    const towerLimit: int := 3
    const spawnInterval: int := 60          // ticks between spawns
    const restartButtonX: real := 300.0
    const restartButtonY: real := 360.0
    const restartButtonWidth: real := 200.0
    const restartButtonHeight: real := 60.0
    const hud: Hud

    var enemies: seq<Enemy>
    var towers: seq<Tower>
    var projectiles: seq<Projectile>
    var enemiesDefeated: int
    var mousePressed: bool                  // the button state seen on the previous tick
    var tick: int
    var errorMessage: string
    var errorTimer: int
    var enemiesPerWave: int
    var enemiesSpawnedInWave: int
    var lastSpawnTick: int
    var lives: int
    var gameOver: bool

    /** The objects the game owns: itself, its HUD, and every enemy and projectile it has
        made. */
    ghost var Repr: set<object>

    /** The objects the game owns, and no enemy or projectile listed twice; every
        projectile chases an enemy. */
    ghost predicate Owned()
      reads this`Repr, this`enemies, this`projectiles
    {
      && this in Repr && hud in Repr
      && (forall e :: e in enemies ==> e in Repr)
      && Distinct(enemies)
      && (forall p :: p in projectiles ==> p in Repr && p.target != null && p.target in Repr)
      && Distinct(projectiles)
    }

    /** The towers, within the limit and as the HUD counts them. */
    ghost predicate Built()
      reads this`towers, hud`towersBuilt, hud`towersLimit
    {
      && |towers| <= towerLimit
      && (forall t :: t in towers ==> t.fireRate == 1.0)
      && hud.towersBuilt == |towers| && hud.towersLimit == towerLimit
    }

    /** The counters, and the HUD showing the same lives and kills. */
    ghost predicate Counted()
      reads this`enemiesSpawnedInWave, this`enemiesPerWave, this`errorTimer, this`errorMessage
      reads this`lives, this`enemiesDefeated, this`gameOver
      reads hud`lives, hud`enemiesDefeated, hud`currentWave
    {
      && 0 <= enemiesSpawnedInWave <= enemiesPerWave
      && 0 <= errorTimer <= ErrorTicks
      && (errorTimer == 0 <==> errorMessage == "")
      && hud.lives == lives && hud.enemiesDefeated == enemiesDefeated
      && 0 <= hud.currentWave
      && (!gameOver ==> 0 < lives)
    }

    /** The invariant every tick keeps. */
    ghost predicate Valid()
      reads this, hud
    {
      |maps| == 1 && maps[0] != [] && Owned() && Built() && Counted()
    }

    /** The state a new game starts in, and a restart returns to. */
    ghost predicate Initial()
      reads this, hud
    {
      && enemies == [] && towers == [] && projectiles == []
      && enemiesDefeated == 0 && lives == 10 && !gameOver && tick == 0
      && enemiesPerWave == 0 && enemiesSpawnedInWave == 0 && lastSpawnTick == 0
      && errorMessage == "" && errorTimer == 0
      && hud.towersBuilt == 0 && hud.enemiesDefeated == 0 && hud.currentWave == 0
      && !hud.waveActive && hud.enemiesInWave == 3 && hud.enemiesKilledInWave == 0
      && hud.lives == 10
    }

    /** NewGame: the default map, a limit of 3 towers, 10 lives, no wave started. */
    constructor ()
      ensures Valid() && fresh(Repr) && maps == [DefaultMap()]
      ensures Initial() && !mousePressed
      ensures hud.towersLimit == 3 && hud.coins == 50
    {
      hud := new Hud(3);
      maps := [DefaultMap()];
      enemies, towers, projectiles := [], [], [];
      enemiesDefeated, mousePressed, tick := 0, false, 0;
      errorMessage, errorTimer := "", 0;
      enemiesPerWave, enemiesSpawnedInWave, lastSpawnTick := 0, 0, 0;
      lives, gameOver := 10, false;
      new;
      hud.lives := 10;
      Repr := {this, hud};
    }

    /** Whether an enemy is due: the wave still has some to send, and this is the first or
        the interval has passed since the last. */
    predicate SpawnDue()
      reads this
    {
      enemiesSpawnedInWave < enemiesPerWave
      && (tick - lastSpawnTick >= spawnInterval || enemiesSpawnedInWave == 0)
    }

    /** Adds at most one new enemy at the start of the path, when one is due. */
    method SpawnEnemies()
      requires Valid()
      modifies this`enemies, this`enemiesSpawnedInWave, this`lastSpawnTick, this`Repr
      ensures Valid() && old(Repr) <= Repr && fresh(Repr - old(Repr))
      ensures old(SpawnDue()) ==>
        && |enemies| == |old(enemies)| + 1 && enemies[..|old(enemies)|] == old(enemies)
        && fresh(enemies[|old(enemies)|])
        && enemies[|old(enemies)|].Motion()
           == Mover(CenterInPath(maps[0][0].startX, PathWidth), CenterInPath(maps[0][0].startY, PathWidth), 2.0, 0)
        && enemies[|old(enemies)|].life == 40
        && enemiesSpawnedInWave == old(enemiesSpawnedInWave) + 1 && lastSpawnTick == tick
      ensures !old(SpawnDue()) ==>
        enemies == old(enemies) && enemiesSpawnedInWave == old(enemiesSpawnedInWave)
        && lastSpawnTick == old(lastSpawnTick)
    {
      if enemiesSpawnedInWave < enemiesPerWave {
        if tick - lastSpawnTick >= spawnInterval || enemiesSpawnedInWave == 0 {
          var e := new Enemy(maps[0]);
          enemies := enemies + [e];
          Repr := Repr + {e};
          enemiesSpawnedInWave := enemiesSpawnedInWave + 1;
          lastSpawnTick := tick;
        }
      }
    }

    /** The towers' turn: each tower in list order fires when it can, so the new
        projectiles are the tick's volley, in tower order, and each tower's reload time is
        the tick exactly when it fired. */
    method FireTowers()
      requires Valid()
      modifies this`towers, this`projectiles, this`Repr
      ensures Valid() && old(Repr) <= Repr && fresh(Repr - old(Repr))
      ensures var ss := old(Sightings(enemies));
        && |towers| == |old(towers)|
        && (forall i :: 0 <= i < |towers| ==> towers[i] == Reloaded(old(towers)[i], ss, tick))
        && |old(projectiles)| <= |projectiles| && projectiles[..|old(projectiles)|] == old(projectiles)
        && LaunchedAll(projectiles[|old(projectiles)|..], Volley(old(towers), ss, tick), enemies)
        && forall p :: p in projectiles[|old(projectiles)|..] ==> fresh(p)
    {
      ghost var ss := Sightings(enemies);
      var reloaded, launched := FireAll(towers, enemies, tick, ss);
      forall p: Projectile | p in launched
        ensures p !in Repr && p.target in enemies
      {
        var k :| 0 <= k < |launched| && launched[k] == p;
        assert Launched(launched[k], Volley(old(towers), ss, tick)[k], enemies);
      }
      Launch(launched);
      assert projectiles[..|old(projectiles)|] == old(projectiles);
      assert projectiles[|old(projectiles)|..] == launched;
      towers := reloaded;
    }

    /** Puts the projectiles the towers fired in play, after those already flying. */
    method Launch(launched: seq<Projectile>)
      requires Valid() && Distinct(launched)
      requires forall p: Projectile :: p in launched ==> p !in Repr && p.target in enemies
      modifies this`projectiles, this`Repr
      ensures Valid() && projectiles == old(projectiles) + launched
      ensures Repr == old(Repr) + set p | p in launched
    {
      DistinctConcat(projectiles, launched);
      projectiles := projectiles + launched;
      Repr := Repr + set p | p in launched;
    }

    /** Moves the wave on by one tick. Each enemy in list order: a dead one is dropped and
        counted as a kill; a living one past the last segment is dropped and costs a life,
        ending the game once lives reach zero; any other follows the path and stays. */
    method AdvanceEnemies()
      requires Valid()
      modifies this`enemies, this`lives, this`gameOver, this`enemiesDefeated
      modifies hud`lives, hud`enemiesDefeated, hud`enemiesKilledInWave, hud`waveActive
      modifies enemies
      ensures Valid() && Repr == old(Repr)
      ensures var fs := old(Fates(enemies, |maps[0]|));
        && enemies == Filter(old(enemies), MarchFlags(fs))
        && lives == old(lives) - Count(fs, Escaped)
        && enemiesDefeated == old(enemiesDefeated) + Count(fs, Killed)
        && hud.enemiesKilledInWave == old(hud.enemiesKilledInWave) + Count(fs, Killed)
        && gameOver == (old(gameOver) || (Count(fs, Escaped) > 0 && lives <= 0))
        && hud.waveActive == (old(hud.waveActive) && !(Count(fs, Escaped) > 0 && lives <= 0))
      ensures forall e :: e in old(enemies) ==>
        && e.life == old(e.life)
        && (FateOf(old(e.life), old(e.currentPathIndex), |maps[0]|) == Marching ==>
              e.Motion() == PathStep(old(e.Motion()), maps[0]))
        && (FateOf(old(e.life), old(e.currentPathIndex), |maps[0]|) != Marching ==>
              e.Motion() == old(e.Motion()))
    {
      ghost var fs := Fates(enemies, |maps[0]|);
      var alive, escaped, killed := MarchAll(enemies, maps[0]);
      FilterWithin(old(enemies), MarchFlags(fs));
      enemies := alive;
      Tally(escaped, killed);
    }

    /** Books a tick's escapes and kills: each escape costs a life and the game ends once
        lives reach zero, which also ends the wave; kills add to both kill counters. */
    method Tally(escaped: nat, killed: nat)
      requires Valid()
      modifies this`lives, this`gameOver, this`enemiesDefeated
      modifies hud`lives, hud`enemiesDefeated, hud`enemiesKilledInWave, hud`waveActive
      ensures Valid()
      ensures lives == old(lives) - escaped && enemiesDefeated == old(enemiesDefeated) + killed
      ensures hud.enemiesKilledInWave == old(hud.enemiesKilledInWave) + killed
      ensures gameOver == (old(gameOver) || (escaped > 0 && lives <= 0))
      ensures hud.waveActive == (old(hud.waveActive) && !(escaped > 0 && lives <= 0))
    {
      lives, enemiesDefeated := lives - escaped, enemiesDefeated + killed;
      if escaped > 0 && lives <= 0 {
        gameOver := true;
        hud.waveActive := false;
      }
      hud.lives, hud.enemiesDefeated := lives, enemiesDefeated;
      hud.enemiesKilledInWave := hud.enemiesKilledInWave + killed;
    }

    /** Ends the wave once every enemy of it has been sent and none is left: the wave is
        no longer active, the kill count restarts, and the preview shows the next wave. */
    method CheckWaveComplete()
      requires Valid()
      modifies hud`waveActive, hud`enemiesKilledInWave, hud`enemiesInWave
      ensures Valid()
      ensures enemiesSpawnedInWave >= enemiesPerWave && enemies == [] ==>
        !hud.waveActive && hud.enemiesKilledInWave == 0
        && hud.enemiesInWave == WaveSize(hud.currentWave + 1)
      ensures !(enemiesSpawnedInWave >= enemiesPerWave && enemies == []) ==>
        hud.waveActive == old(hud.waveActive) && hud.enemiesKilledInWave == old(hud.enemiesKilledInWave)
        && hud.enemiesInWave == old(hud.enemiesInWave)
    {
      if enemiesSpawnedInWave >= enemiesPerWave && |enemies| == 0 {
        hud.waveActive := false;
        hud.enemiesKilledInWave := 0;
        var nextWaveEnemies := 3 + hud.currentWave * 2;
        hud.enemiesInWave := nextWaveEnemies;
      }
    }

    /** The projectiles' turn: each projectile in list order chases its target, striking
        it for 10 or flying on; the ones still flying are kept, in order. */
    method ResolveProjectiles(sqrt: real -> real)
      requires Valid()
      modifies this`projectiles, projectiles`positionX, projectiles`positionY, Targets(projectiles)`life
      ensures Valid()
      ensures var r := old(Resolve(Shots(projectiles), LivesOf(projectiles), sqrt));
        && projectiles == Filter(old(projectiles), FlyingFlags(r.0))
        && (forall e :: e in r.1 ==> e != null && e.life == r.1[e])
        && (forall j :: 0 <= j < |old(projectiles)| ==>
              if r.0[j].Flying? then old(projectiles)[j].positionX == r.0[j].x && old(projectiles)[j].positionY == r.0[j].y
              else old(projectiles)[j].positionX == old(projectiles[j].positionX)
                   && old(projectiles)[j].positionY == old(projectiles[j].positionY))
    {
      ghost var r := Resolve(Shots(projectiles), LivesOf(projectiles), sqrt);
      FilterWithin(projectiles, FlyingFlags(r.0));
      var active := FlyProjectiles(sqrt);
      KeepProjectiles(active);
    }

    /** The projectiles' flight, leaving the game's own fields as they are. */
    method FlyProjectiles(sqrt: real -> real) returns (active: seq<Projectile>)
      requires Distinct(projectiles)
      modifies projectiles`positionX, projectiles`positionY, Targets(projectiles)`life
      ensures unchanged(this, hud)
      ensures var r := old(Resolve(Shots(projectiles), LivesOf(projectiles), sqrt));
        && active == Filter(projectiles, FlyingFlags(r.0))
        && (forall e :: e in r.1 ==> e != null && e.life == r.1[e])
        && (forall j :: 0 <= j < |projectiles| ==>
              if r.0[j].Flying? then projectiles[j].positionX == r.0[j].x && projectiles[j].positionY == r.0[j].y
              else projectiles[j].positionX == old(projectiles[j].positionX)
                   && projectiles[j].positionY == old(projectiles[j].positionY))
    {
      active := FlyAll(projectiles, sqrt);
    }

    /** Keeps only the given projectiles in play, out of those already there. */
    method KeepProjectiles(active: seq<Projectile>)
      requires Valid() && Distinct(active) && forall p :: p in active ==> p in projectiles
      modifies this`projectiles
      ensures Valid() && projectiles == active
    {
      projectiles := active;
    }

    /** Starts the next wave: the wave number goes up by one, the wave is active, and it
        will send WaveSize(wave) enemies, the first of them on this very tick. */
    method StartNextWave()
      requires Valid()
      modifies hud`currentWave, hud`waveActive, hud`enemiesInWave, hud`enemiesKilledInWave
      modifies this`enemiesPerWave, this`enemiesSpawnedInWave, this`lastSpawnTick
      ensures Valid()
      ensures hud.currentWave == old(hud.currentWave) + 1 && hud.waveActive
      ensures enemiesPerWave == WaveSize(hud.currentWave) && hud.enemiesInWave == enemiesPerWave
      ensures enemiesSpawnedInWave == 0 && hud.enemiesKilledInWave == 0
      ensures lastSpawnTick == tick - spawnInterval && SpawnDue()
    {
      hud.currentWave := hud.currentWave + 1;
      hud.waveActive := true;
      enemiesPerWave := 3 + (hud.currentWave - 1) * 2;
      enemiesSpawnedInWave := 0;
      lastSpawnTick := tick - spawnInterval;
      hud.enemiesInWave := enemiesPerWave;
      hud.enemiesKilledInWave := 0;
    }

    /** Tries to build a tower centred at (x, y): refused with a message shown for 120
        ticks in the HUD band or where the tower would touch the path, built otherwise. */
    method PlaceTower(x: real, y: real)
      requires Valid() && |towers| < towerLimit
      modifies this`towers, hud`towersBuilt, this`errorMessage, this`errorTimer
      ensures Valid()
      ensures match TryPlace(x, y, maps[0])
        case Placed(t) =>
          towers == old(towers) + [t] && errorMessage == old(errorMessage) && errorTimer == old(errorTimer)
        case Rejected(message) =>
          towers == old(towers) && errorMessage == message && errorTimer == ErrorTicks
    {
      if y < HUDHeight {
        errorMessage := HudAreaError;
        errorTimer := 120;
        return;
      }
      if CanPlaceTower(x, y, maps[0]) {
        towers := towers + [NewTower(x, y)];
        hud.towersBuilt := |towers|;
      } else {
        errorMessage := PathError;
        errorTimer := 120;
      }
    }

    /** The running game's mouse handling, as ClickAction decides it; the button state is
        remembered for the next tick. */
    method HandleMouseInput(pressed: bool, mx: int, my: int)
      requires Valid()
      modifies this`towers, hud`towersBuilt, this`errorMessage, this`errorTimer, this`mousePressed
      modifies hud`currentWave, hud`waveActive, hud`enemiesInWave, hud`enemiesKilledInWave
      modifies this`enemiesPerWave, this`enemiesSpawnedInWave, this`lastSpawnTick
      ensures Valid() && mousePressed == pressed
      ensures var c := ClickAction(pressed, old(mousePressed), hud.IsButtonClicked(mx, my), old(hud.waveActive),
                                   old(|towers|), towerLimit);
        && (c == StartWave ==>
              && hud.currentWave == old(hud.currentWave) + 1 && hud.waveActive
              && enemiesPerWave == WaveSize(hud.currentWave) && enemiesSpawnedInWave == 0 && SpawnDue()
              && lastSpawnTick == tick - spawnInterval
              && hud.enemiesInWave == enemiesPerWave && hud.enemiesKilledInWave == 0
              && towers == old(towers) && errorTimer == old(errorTimer) && errorMessage == old(errorMessage))
        && (c != StartWave ==>
              && hud.currentWave == old(hud.currentWave) && hud.waveActive == old(hud.waveActive)
              && enemiesPerWave == old(enemiesPerWave) && enemiesSpawnedInWave == old(enemiesSpawnedInWave)
              && lastSpawnTick == old(lastSpawnTick) && hud.enemiesInWave == old(hud.enemiesInWave)
              && hud.enemiesKilledInWave == old(hud.enemiesKilledInWave))
        && (c == PlaceAt ==>
              match TryPlace(mx as real, my as real, maps[0])
              case Placed(t) =>
                towers == old(towers) + [t] && errorTimer == old(errorTimer) && errorMessage == old(errorMessage)
              case Rejected(message) => towers == old(towers) && errorMessage == message && errorTimer == ErrorTicks)
        && (c == Ignore ==>
              towers == old(towers) && errorTimer == old(errorTimer) && errorMessage == old(errorMessage))
    {
      if pressed && !mousePressed {
        if hud.IsButtonClicked(mx, my) && !hud.waveActive {
          StartNextWave();
        } else if |towers| < towerLimit {
          PlaceTower(mx as real, my as real);
        }
      }
      mousePressed := pressed;
    }

    /** One tick of the error message's countdown. */
    method TickErrorTimer()
      requires Valid()
      modifies this`errorTimer, this`errorMessage
      ensures Valid() && (errorTimer, errorMessage) == Countdown(old(errorTimer), old(errorMessage))
    {
      if errorTimer > 0 {
        errorTimer := errorTimer - 1;
        if errorTimer == 0 {
          errorMessage := "";
        }
      }
    }

    /** Whether the click (x, y) lies on the game-over screen's restart button, borders
        included. */
    predicate IsRestartButtonClicked(x: int, y: int): (r: bool)
      ensures r <==> 300 <= x <= 500 && 360 <= y <= 420
    {
      var fx, fy := x as real, y as real;
      fx >= restartButtonX && fx <= restartButtonX + restartButtonWidth
      && fy >= restartButtonY && fy <= restartButtonY + restartButtonHeight
    }

    /** Puts the game back in the state a new game starts in. The tower limit, the coins
        and the remembered button state are kept. */
    method RestartGame()
      requires Valid()
      modifies this`enemies, this`towers, this`projectiles, this`enemiesDefeated, this`lives
      modifies this`gameOver, this`tick, this`enemiesPerWave, this`enemiesSpawnedInWave
      modifies this`lastSpawnTick, this`errorMessage, this`errorTimer
      modifies hud`towersBuilt, hud`enemiesDefeated, hud`currentWave, hud`waveActive
      modifies hud`enemiesInWave, hud`enemiesKilledInWave, hud`lives
      ensures Valid() && Initial()
    {
      ClearPlay();
      hud.Reset();
    }

    /** The game's own part of a restart: no enemies, towers or projectiles, the counters
        back to a new game's, no error shown. */
    method ClearPlay()
      modifies this`enemies, this`towers, this`projectiles, this`enemiesDefeated, this`lives
      modifies this`gameOver, this`tick, this`enemiesPerWave, this`enemiesSpawnedInWave
      modifies this`lastSpawnTick, this`errorMessage, this`errorTimer
      ensures enemies == [] && towers == [] && projectiles == []
      ensures enemiesDefeated == 0 && lives == 10 && !gameOver && tick == 0
      ensures enemiesPerWave == 0 && enemiesSpawnedInWave == 0 && lastSpawnTick == 0
      ensures errorMessage == "" && errorTimer == 0
    {
      enemies, towers, projectiles := [], [], [];
      enemiesDefeated, lives, gameOver, tick := 0, 10, false, 0;
      enemiesPerWave, enemiesSpawnedInWave, lastSpawnTick := 0, 0, 0;
      errorMessage, errorTimer := "", 0;
    }

    /** The game-over screen's mouse handling: a fresh click on the restart button
        restarts the game; nothing else changes but the remembered button state. */
    method HandleGameOverInput(pressed: bool, mx: int, my: int)
      requires Valid()
      modifies this`enemies, this`towers, this`projectiles, this`enemiesDefeated, this`lives
      modifies this`gameOver, this`tick, this`enemiesPerWave, this`enemiesSpawnedInWave
      modifies this`lastSpawnTick, this`errorMessage, this`errorTimer, this`mousePressed
      modifies hud`towersBuilt, hud`enemiesDefeated, hud`currentWave, hud`waveActive
      modifies hud`enemiesInWave, hud`enemiesKilledInWave, hud`lives
      ensures Valid() && mousePressed == pressed
      ensures pressed && !old(mousePressed) && IsRestartButtonClicked(mx, my) ==> Initial()
      ensures !(pressed && !old(mousePressed) && IsRestartButtonClicked(mx, my)) ==>
        && enemies == old(enemies) && towers == old(towers) && projectiles == old(projectiles)
        && lives == old(lives) && gameOver == old(gameOver) && tick == old(tick)
        && enemiesDefeated == old(enemiesDefeated) && enemiesPerWave == old(enemiesPerWave)
        && enemiesSpawnedInWave == old(enemiesSpawnedInWave) && lastSpawnTick == old(lastSpawnTick)
        && errorMessage == old(errorMessage) && errorTimer == old(errorTimer)
        && unchanged(hud)
    {
      if pressed && !mousePressed {
        if IsRestartButtonClicked(mx, my) {
          RestartGame();
        }
      }
      mousePressed := pressed;
    }

    /** One tick of the game. The tick counter goes up first. After game over only the
        restart click is handled. While a wave is active its phases run in order: spawn,
        move the enemies, check for the wave's end, fire the towers, move the projectiles.
        Then the click is handled and the error message counts down. */
    method Update(pressed: bool, mx: int, my: int, sqrt: real -> real)
      requires Valid()
      modifies Repr
      ensures Valid() && mousePressed == pressed
      ensures old(gameOver) ==>
        if pressed && !old(mousePressed) && IsRestartButtonClicked(mx, my) then Initial()
        else && gameOver && tick == old(tick) + 1 && lives == old(lives)
             && enemies == old(enemies) && towers == old(towers) && projectiles == old(projectiles)
             && enemiesDefeated == old(enemiesDefeated) && enemiesPerWave == old(enemiesPerWave)
             && enemiesSpawnedInWave == old(enemiesSpawnedInWave) && lastSpawnTick == old(lastSpawnTick)
             && errorMessage == old(errorMessage) && errorTimer == old(errorTimer)
             && unchanged(hud) && (forall e :: e in old(enemies) ==> unchanged(e))
             && (forall p :: p in old(projectiles) ==> unchanged(p))
      ensures !old(gameOver) ==> tick == old(tick) + 1 && 0 <= errorTimer < ErrorTicks
      ensures !old(gameOver) && !old(hud.waveActive) ==>
        enemies == old(enemies) && projectiles == old(projectiles) && lives == old(lives)
      ensures !old(gameOver) ==> lives <= old(lives) && old(enemiesDefeated) <= enemiesDefeated && |old(towers)| <= |towers| <= |old(towers)| + 1
    {
      tick := tick + 1;
      if gameOver {
        HandleGameOverInput(pressed, mx, my);
        return;
      }
      Play(pressed, mx, my, sqrt);
    }

    /** A tick while the game is on: the wave's phases when one is active, then the
        player's click, then the error message's countdown. */
    method Play(pressed: bool, mx: int, my: int, sqrt: real -> real)
      requires Valid()
      modifies Repr
      ensures Valid() && mousePressed == pressed && tick == old(tick)
      ensures 0 <= errorTimer < ErrorTicks
      ensures !old(hud.waveActive) ==>
        enemies == old(enemies) && projectiles == old(projectiles) && lives == old(lives)
      ensures lives <= old(lives) && old(enemiesDefeated) <= enemiesDefeated && (old(gameOver) ==> gameOver)
      ensures |old(towers)| <= |towers| <= |old(towers)| + 1
    {
      if hud.waveActive {
        RunWave(sqrt);
      }
      HandleMouseInput(pressed, mx, my);
      TickErrorTimer();
    }

    /** The phases of a tick while a wave is active, in order: spawn, move the enemies,
        check for the wave's end, fire the towers, move the projectiles. */
    method RunWave(sqrt: real -> real)
      requires Valid()
      modifies Repr
      ensures Valid() && tick == old(tick)
      ensures |towers| == |old(towers)| && lives <= old(lives) && old(enemiesDefeated) <= enemiesDefeated && (old(gameOver) ==> gameOver)
    {
      EnemyPhases();
      TowerPhases(sqrt);
    }

    /** Spawning, moving the enemies and checking for the wave's end. */
    method EnemyPhases()
      requires Valid()
      modifies Repr
      ensures Valid() && tick == old(tick) && old(Repr) <= Repr && fresh(Repr - old(Repr))
      ensures towers == old(towers) && lives <= old(lives) && old(enemiesDefeated) <= enemiesDefeated && (old(gameOver) ==> gameOver)
    {
      SpawnEnemies();
      MoveEnemies();
      CheckWaveComplete();
    }

    /** The enemies' move, with only what the later phases rely on. */
    method MoveEnemies()
      requires Valid()
      modifies this`enemies, this`lives, this`gameOver, this`enemiesDefeated
      modifies hud`lives, hud`enemiesDefeated, hud`enemiesKilledInWave, hud`waveActive
      modifies enemies
      ensures Valid() && Repr == old(Repr)
      ensures lives <= old(lives) && old(enemiesDefeated) <= enemiesDefeated && (old(gameOver) ==> gameOver)
    {
      AdvanceEnemies();
    }

    /** Tower fire, then the projectiles' turn. */
    method TowerPhases(sqrt: real -> real)
      requires Valid()
      modifies this`towers, this`projectiles, this`Repr, Repr - {this}
      ensures Valid() && |towers| == |old(towers)|
    {
      FireTowers();
      TargetsWithin(projectiles, Repr);
      ResolveProjectiles(sqrt);
    }
  }
}

# FinalPath in Dafny

A verified model of the simulation core of FinalPath, a tick-driven tower-defence game
written in Go. Enemies walk a path of axis-aligned segments. Towers placed beside the path
fire homing projectiles at them. Waves of growing size are started from a HUD button. An
enemy that escapes costs a life, and losing every life ends the game until the player
clicks restart.

The project has one Dafny module per source package:

- `Config` (config.dfy): the sizes and offsets the other modules share.
- `Utils` (utils.dfy): centre and top-left conversions, centring in a corridor, min and max,
  Go's float-to-int truncation, and squared distance.
- `GameMap` (gamemap.dfy): path segments, the default map, and the "is this point on the
  path" corridor test.
- `Entity` (entity.dfy):
  - enemies, as a class whose path following and damage update fields in place;
  - towers, as values, with their range test, fire cadence and placement clearance;
  - projectiles, as a class whose homing step moves them in place.
- `Shop` (shop.dfy): the shop's catalogue, which item a click selects, and opening and
  closing.
- `Hud` (hud.dfy): the HUD's counters and its two button hit-tests.
- `Game` (game.dfy): the packaged game's state and its `Update` tick. The tick's phases are
  spawning, enemy movement with escapes and kills, wave completion, tower fire, projectile
  resolution, the edge-triggered click handling, the error-message countdown, and restart.
- `Snapshot` (snapshot.dfy): main.go's earlier standalone version. It has one global enemy,
  projectiles held as values, and damage that is not clamped.

Each loop of the tick is a method. It is proved against a pure function of the state at the
start of the phase:

| loop | proved against |
|---|---|
| enemy loop | `Fates`, `Filter`, `Count` |
| towers loop | `Reloaded`, `Volley` |
| projectile loop | `Resolve` |

Lemmas then prove what those functions promise:

- every enemy is exactly one of killed, escaped or marching;
- every shot goes to the firing tower's first live in-range enemy;
- every strike takes exactly 10 hit points, clamped at zero;
- homing always reaches a stationary target;
- a held click acts once;
- an error message stays for exactly its timer.

The game's invariant `Game.Game.Valid` is kept by every operation. It says:

- the game owns its objects, and no enemy or projectile is listed twice;
- there are no more towers than the limit;
- the HUD mirrors the lives, kills and tower count;
- `0 <= enemiesSpawnedInWave <= enemiesPerWave`;
- the error message is shown exactly while its timer runs.

`math.Sqrt` is the parameter `sqrt` of the operations that use it. The geometric lemmas
additionally require `IsSqrt(sqrt)`, which says that `sqrt` is an exact square root on the
non-negative reals.

## Model

| member | source | states |
|---|---|---|
| Utils.CenteredPosition.TopLeft | internal/utils/utils.go:13-16 | The top-left corner lies half the size up and left of the centre; converting it back with GetCenterFromTopLeft recovers the centre |
| Utils.CenteredPosition.Center | internal/utils/utils.go:19-21 | The stored coordinates are already the centre and come back unchanged |
| Utils.GetCenterFromTopLeft | internal/utils/utils.go:24-27 | The centre lies down and right of the corner by the same amount on both axes (for a non-negative size) |
| Utils.TopLeftOfCenter | internal/utils/utils.go:13-27 | The other round trip: the top-left of the centre computed from a corner is that corner |
| Utils.CenterInPath | internal/utils/utils.go:31-33 | The corridor's centre line is equally far from both edges and lies between them. main.go's centerInPath (lines 51-53) is the same function |
| Utils.Min | internal/utils/utils.go:36-41 | Returns one of its arguments, and it is at most both. main.go's min (lines 176-181) is the same |
| Utils.Max | internal/utils/utils.go:44-49 | Returns one of its arguments, and it is at least both. main.go's max (lines 183-188) is the same |
| Utils.Trunc | internal/entity/tower.go:42 | Go's float-to-int conversion truncates toward zero: the result is within 1 of the value, on the side of zero |
| Utils.SquaredDistanceSymmetric | internal/entity/tower.go:32-37 | The squared distance does not depend on which point comes first |
| GameMap.DefaultMap | internal/gamemap/map.go:24-33 | Five segments, each vertical or horizontal, each ending where the next starts, all shifted below the HUD by MapOffsetY |
| GameMap.IsPositionOnPath | internal/gamemap/map.go:63-78 | True exactly when some segment's box contains the point. The box is widened by the margin of 30 on every side and by PathWidth on the far side, with inclusive bounds. An empty map gives false. main.go's isPositionOnPath (lines 137-152) is the same rule |
| GameMap.CorridorIgnoresDirection | internal/gamemap/map.go:67-72 | A segment's corridor box does not depend on its direction |
| GameMap.OnPathIgnoresDirection | internal/gamemap/map.go:63-78 | Reversing any segment of a map leaves every point's answer unchanged |
| GameMap.OnPathMonotone | internal/gamemap/map.go:66-77 | Appending segments never takes a point off the path |
| GameMap.StartIsOnPath | internal/gamemap/map.go:67-72 | The start corner of every segment is on the path |
| GameMap.CorridorIsWide | internal/gamemap/map.go:64-72 | Every corridor box is at least PathWidth + 60 wide and tall, larger than a tower |
| GameMap.ShiftY | internal/gamemap/map.go:24-33 | Moving a map down by dy moves each segment's Y coordinates by dy and nothing else |
| GameMap.OnPathShifted | internal/gamemap/map.go:63-78 | Moving the map and the point down together does not change the answer |
| Entity.PathStep | internal/entity/enemy.go:52-98 | One tick of path following. An escaped enemy, or one on a segment neither vertical nor horizontal, is unchanged. Otherwise the cross coordinate snaps to the corridor's centre line. The index advances exactly when the end corner's centre is reached. Otherwise the enemy moves by exactly its speed in the segment's direction, never both. The speed is kept and the index grows by at most 1. main.go's followPath (lines 282-328) has the same rules |
| Entity.WalkNeverBacktracks | internal/entity/enemy.go:52-98 | Over n ticks the segment index never decreases, grows by at most n, and the speed never changes |
| Entity.EscapedStaysPut | internal/entity/enemy.go:53-55 | An enemy past the last segment never moves again |
| Entity.Damaged | internal/entity/enemy.go:43-48 | Hit points after damage are never negative. They stay positive exactly when the life exceeds the damage, in which case the damage is subtracted exactly |
| Entity.FourHitsKill | internal/entity/enemy.go:33 | A new enemy's 40 hit points survive three hits of 10 and not four |
| Entity.Enemy.constructor | internal/entity/enemy.go:22-35 | On a non-empty map: at the centre of segment 0's start corner, speed 2, index 0, 40 hit points, alive. On an empty map: a zero enemy that is not alive |
| Entity.Enemy.IsAlive | internal/entity/enemy.go:38-40 | Alive exactly while the hit points are positive; a dead enemy stays at 0 whatever non-negative damage it takes |
| Entity.Enemy.TakeDamage | internal/entity/enemy.go:43-48 | The life becomes the clamped Damaged value. It is never negative, and the enemy stays alive exactly when its old life exceeded the damage |
| Entity.Enemy.FollowPath | internal/entity/enemy.go:52-98 | The enemy's motion becomes PathStep of its old motion. Its hit points are untouched |
| Entity.TicksPerShot | internal/entity/tower.go:41-44 | For a positive rate the reload time is 60 / fireRate truncated, within 1 below it; at the default rate it is 60 ticks |
| Entity.CanFire | internal/entity/tower.go:41-44 | For a positive rate a tower may fire exactly when the ticks since its last shot exceed 60 / fireRate - 1; at the default rate exactly when at least 60 have passed. main.go's canFire (lines 269-272) is the same test |
| Entity.NewTower | internal/entity/tower.go:20-28 | Range 100, damage 10, rate 1, never fired. It may fire at tick t exactly when t >= 60, and it covers its own centre |
| Entity.IsEnemyInRange | internal/entity/tower.go:32-37 | The inclusive range test gives the same answer measured from the enemy, and an enemy at the tower's centre is always in range. main.go's isEnemyInRange (lines 262-267) is the same test |
| Entity.NoneOnPath | internal/entity/tower.go:66-72 | The early-return scan succeeds exactly when no listed point is on the path |
| Entity.CanPlaceTower | internal/entity/tower.go:53-73 | True exactly when none of the centre and the four corners at TowerSize/2 is on the path. In particular the centre is not on the path. main.go's canPlaceTower (lines 154-174) checks the same five points |
| Entity.PlacedTowerClearsPath | internal/entity/tower.go:53-73 | Checking five points is enough: every point of a placeable tower's square is off the path |
| Entity.SqrtOfSquare | internal/entity/projectile.go:34 | With an exact square root, the root of a square is its non-negative base |
| Entity.CloserThanSpeed | internal/entity/projectile.go:34-39 | The test "distance < speed" agrees with "squared distance < speed squared" |
| Entity.AdvanceDistance | internal/entity/projectile.go:42-45 | A step of `speed` along the normalised direction leaves the projectile exactly `speed` closer |
| Entity.HomeStrikes | internal/entity/projectile.go:32-39 | A homing step reaches the target exactly when dx² + dy² < speed² |
| Entity.HomeAdvances | internal/entity/projectile.go:42-45 | A step that does not reach the target ends exactly `speed` closer to it |
| Entity.HomeHeadsForTarget | internal/entity/projectile.go:31-45 | For any square-root function: the step strikes exactly when the computed distance is below the speed, and otherwise moves along the line to the target and toward it |
| Entity.HomingReachesTarget | internal/entity/projectile.go:26-46 | Against a stationary target, a projectile at distance d reaches it within any k ticks with d < k * speed |
| Entity.Projectile.constructor | internal/entity/projectile.go:15-22 | The projectile starts at the given point, chasing the given target, with speed 10 |
| Entity.Projectile.Hit | internal/entity/projectile.go:26-46 | With no target or a dead one: false, and the projectile does not move. Otherwise: true without moving when the homing step strikes, else false after moving to the advanced point. The target and speed never change |
| Entity.Attack | internal/entity/tower.go:47-49 | A fresh projectile at the tower's centre, with speed 10, chasing the given enemy |
| Shop.Shop.constructor | internal/shop/shop.go:31-44 | A new shop is closed and lists items 1, 2 and 4 costing 30, 50 and 45 |
| Shop.Shop.FirstItemAt | internal/shop/shop.go:108-121 | Finds the first item whose inclusive rectangle contains the click, and no earlier item contains it. None means no item does |
| Shop.Shop.HandleClick | internal/shop/shop.go:103-124 | A closed shop, or a click on no item, gives (0, false). Otherwise it gives the first hit item's id, and purchased exactly when the coins cover its cost. The shop is not changed |
| Shop.Shop.Toggle | internal/shop/shop.go:127-129 | Flips open, so toggling twice is the identity |
| Shop.Shop.Close | internal/shop/shop.go:132-134 | The shop ends closed, whatever it was, so closing is idempotent |
| Shop.Shop.ItemsDisjoint | internal/shop/shop.go:36-40 | The items' rectangles are separate bands: a click lies in at most one |
| Shop.Shop.TowerSlotBand | internal/shop/shop.go:108-115 | "Buy Tower Slot" is selected exactly by clicks in [220, 580] x [300, 350] |
| Hud.Hud.constructor | internal/hud/hud.go:36-56 | No towers, the given limit, wave 0 inactive, a first wave of 3, 10 lives, 50 coins |
| Hud.Hud.Reset | internal/game/game.go:348-355 | The HUD part of a restart: no towers or kills, wave 0 inactive, a first wave of 3, 10 lives |
| Hud.Hud.IsButtonClicked | internal/hud/hud.go:125-129 | True exactly on the inclusive rectangle [620, 770] x [35, 85] |
| Hud.Hud.IsShopButtonClicked | internal/hud/hud.go:146-150 | True exactly on the inclusive rectangle [620, 770] x [90, 115] |
| Hud.Hud.ButtonsDisjoint | internal/hud/hud.go:47-54 | No click hits both buttons |
| Game.Fates | internal/game/game.go:93-120 | The enemy loop classifies each enemy in order: dead means killed, alive past the last segment means escaped, anything else marches |
| Game.MarchFlags | internal/game/game.go:108-111 | Exactly the marching enemies are kept |
| Game.FatesPartition | internal/game/game.go:93-120 | Every enemy is counted exactly once, as killed, escaped or marching |
| Game.March | internal/game/game.go:94-119 | One enemy's turn: its fate is decided from its life and index. Only a marching enemy follows the path; hit points are untouched |
| Game.MarchAll | internal/game/game.go:92-121 | The enemy loop: the kept list is the marching enemies in their order, and the escaped and killed counts are the counts of those fates. Each marching enemy moves by PathStep, and every other enemy keeps its motion and life |
| Game.Sightings | internal/game/game.go:138-139 | What the towers see of each enemy, in list order |
| Game.FirstTargetFrom | internal/game/game.go:138-143 | Finds the first enemy from a position on that is alive and in range, with none before it. Returns the list length when there is none |
| Game.FirstTarget | internal/game/game.go:138-143 | The scan starts at the first enemy |
| Game.Reloaded | internal/game/game.go:134-146 | A tower keeps everything but its last fire time, which becomes the tick exactly when it fires |
| Game.VolleyAims | internal/game/game.go:134-146 | Every shot of the tick comes from a tower that has reloaded, and goes to its first live in-range enemy |
| Game.VolleySize | internal/game/game.go:134-146 | Each firing tower fires exactly once per tick: one shot per firing tower |
| Game.FindTarget | internal/game/game.go:138-144 | The scan with its early break finds the first target |
| Game.FireOne | internal/game/game.go:135-145 | One tower's turn: it fires exactly when it has reloaded and has a target, making a fresh projectile at its centre chasing that target. Its reload time is Reloaded |
| Game.FireAll | internal/game/game.go:134-146 | The towers loop: every tower becomes its Reloaded self, and the new projectiles are the tick's volley, one for one and in tower order |
| Game.Fly | internal/game/game.go:150-161 | A projectile is dropped exactly when its target is missing or dead. Otherwise it strikes or flies on |
| Game.FlyCloses | internal/entity/projectile.go:42-45 | A projectile that flies on ends exactly 10 closer to its target |
| Game.FlyStrikes | internal/game/game.go:152-157 | A projectile strikes exactly when its target is alive and the squared distance is below 100 |
| Game.Resolve | internal/game/game.go:149-163 | The projectiles act in list order, and each sees the hit points the earlier ones left. Every target is recorded |
| Game.ResolveDamage | internal/game/game.go:152-157 | Each enemy ends the phase with its hit points less 10 per projectile that struck it, clamped at zero |
| Game.FlyOne | internal/game/game.go:151-161 | One projectile's turn: it moves as Fly says, a strike takes 10 from the living target, and it is kept exactly when it flies on |
| Game.FlyAll | internal/game/game.go:149-163 | The projectile loop: the kept list is the projectiles still flying, in order. Every target ends with the hit points Resolve gives, and each projectile ends at its Resolve position |
| Game.WaveSize | internal/game/game.go:206 | Every wave from the first has at least 3 enemies |
| Game.WaveSizeGrows | internal/game/game.go:128 | Each wave has 2 more enemies than the previous one. The preview 3 + 2w stored when wave w ends is the size of wave w + 1 |
| Game.TryPlace | internal/game/game.go:218-233 | A tower is built exactly when the click is below the HUD band and CanPlaceTower holds; the new tower is NewTower at the click. Otherwise a non-empty message is shown, and it is the HUD message exactly for a click in the band |
| Game.PlacedTowersClearPath | internal/game/game.go:218-233 | A built tower's whole square is off the path and below the HUD band |
| Game.ButtonClickNeverBuilds | internal/game/game.go:188-192 | A click on the Next Wave button that does not start a wave is refused with the HUD message |
| Game.ClickAction | internal/game/game.go:181-198 | Only a press edge acts. It starts a wave exactly when the edge is on the button with no wave active, and it places a tower exactly when the edge is elsewhere (or the wave is active) and the limit is not reached |
| Game.HeldClickActsOnce | internal/game/game.go:184 | Holding the button over several ticks acts at most on the first |
| Game.MessageShownFor | internal/game/game.go:169-175 | An error set with a timer of t counts down for t ticks and is then cleared |
| Game.Countdown | internal/game/game.go:169-175 | A running timer goes down by exactly 1 and never below 0; a stopped one leaves timer and message alone. The message is empty exactly when the timer is 0, before the step and after it |
| Game.Game.constructor | internal/game/game.go:44-67 | NewGame: the default map, a limit of 3 towers, 10 lives mirrored in the HUD, no wave started, and the invariant holds |
| Game.Game.SpawnEnemies | internal/game/game.go:79-89 | At most one enemy is added, and only when it is due: the wave has some left and this is its first or the interval has passed. The new enemy is NewEnemy on the map, and the counter and last spawn tick are updated. spawned <= perWave is kept |
| Game.Game.AdvanceEnemies | internal/game/game.go:91-121 | The enemy phase: marching enemies are kept in order and moved by PathStep. Each escape costs one life and each kill counts once, in both kill counters. The game ends, clearing the wave, exactly when an escape brings the lives to zero |
| Game.Game.Tally | internal/game/game.go:98-117 | Books the counted escapes and kills into the lives and the counters, and sets game over as the escape branch does |
| Game.Game.CheckWaveComplete | internal/game/game.go:123-131 | The wave ends exactly when all its enemies were sent and none is left. Then the kill count restarts and the preview shows the next wave's size |
| Game.Game.FireTowers | internal/game/game.go:133-146 | The towers phase: each tower becomes its Reloaded self, and the projectiles already flying are followed by the tick's volley of fresh projectiles |
| Game.Game.ResolveProjectiles | internal/game/game.go:148-163 | The projectile phase: the kept projectiles, the targets' hit points and the positions are those Resolve gives |
| Game.Game.StartNextWave | internal/game/game.go:201-215 | The wave number goes up by 1 and the wave becomes active. It will send WaveSize enemies, with the counters reset, and the first enemy is due at once |
| Game.Game.PlaceTower | internal/game/game.go:218-233 | Does what TryPlace decides: appends the tower, or shows the message with a 120-tick timer. The HUD's tower count follows |
| Game.Game.HandleMouseInput | internal/game/game.go:181-198 | Does what ClickAction decides. Starting a wave sets the wave counters and leaves towers and the error alone. Placing does what PlaceTower does and leaves the wave counters, the spawn tick and the HUD's wave counts alone. Ignoring changes nothing but the remembered button state |
| Game.Game.TickErrorTimer | internal/game/game.go:169-175 | One Countdown step: a running timer goes down by 1, and the message clears at zero |
| Game.Game.IsRestartButtonClicked | internal/game/game.go:326-330 | True exactly on the inclusive rectangle [300, 500] x [360, 420] |
| Game.Game.RestartGame | internal/game/game.go:333-356 | Back to a new game's state. The tower limit and the coins are kept |
| Game.Game.ClearPlay | internal/game/game.go:335-346 | The game's own fields return to their initial values |
| Game.Game.HandleGameOverInput | internal/game/game.go:309-323 | A fresh click on the restart button restarts. Anything else changes only the remembered button state: lists, lives, counters, spawn tick, error, the HUD, every enemy and every projectile are as they were |
| Game.Game.Update | internal/game/game.go:70-178 | The tick counter goes up. After game over only the restart click is handled, and nothing else changes. A running tick keeps the error timer below 120, never raises the lives, never lowers the kills and adds at most one tower. Without an active wave, enemies, projectiles and lives do not change. The invariant is kept |
| Game.Game.Play | internal/game/game.go:78-175 | A running tick keeps the invariant and remembers the button. Lives never rise, kills never fall, game over stays set, and at most one tower is added. Without an active wave, enemies, projectiles and lives are unchanged |
| Snapshot.FirstMap | main.go:105-111 | The standalone map is the default map's five segments without the offset below the HUD |
| Snapshot.PlacementMatchesShifted | main.go:154-174 | Standalone placement equals the packaged five-point rule with the point shifted by MapOffsetY. There is no HUD-band refusal |
| Snapshot.Hit | main.go:239-260 | With no target or a dead one: false and unmoved. For a living target: the homing step toward its centre decides, true without moving on a strike, else false at the advanced point. The target is never changed |
| Snapshot.ResolveUpTo | main.go:347-361 | The projectiles kept are at most those given. Hit points never rise, and against a dead enemy every projectile is dropped and nothing changes |
| Snapshot.DamageStopsAtDeath | main.go:347-361 | Damage comes in tens and stops once the enemy is dead, so hit points end above -10 |
| Snapshot.LifeStaysOnTens | main.go:350-355 | Hit points that start as a non-negative multiple of 10 stay so: the unclamped damage never takes them below zero |
| Snapshot.KeptChaseTarget | main.go:356-359 | The kept projectiles still chase the enemy |
| Snapshot.UnclampedHit | main.go:353 | Unlike TakeDamage, a strike on an enemy with 5 hit points leaves -5, where the packaged game leaves 0 |
| Snapshot.FireOncePerTick | main.go:338-344 | Each tower keeps all but its last shot time, which becomes the tick exactly when it fires. A tower that fired cannot fire again that tick |
| Snapshot.FireUpTo | main.go:338-344 | Every tower is kept, at most one projectile per tower is fired, each chases the one enemy, and none is fired at a dead enemy |
| Snapshot.FireAims | main.go:338-344 | One projectile per firing tower: their number is the count of towers that fire, and each sits at the centre of a tower whose enemy is in range and alive and which has reloaded, chasing the enemy |
| Snapshot.Fought | main.go:333-361 | The fight after the enemy's move: towers all kept, hit points never rise, and a dead enemy leaves no projectile and keeps its hit points |
| Snapshot.Game.constructor | main.go:119-125 | The single enemy starts at the centre of (350, 0) with speed 2 and 40 hit points, on the first map, with a tower limit of 3 |
| Snapshot.Game.MoveEnemy | main.go:333-335 | The enemy follows the path only while alive |
| Snapshot.Game.FireTowers | main.go:338-344 | The towers loop gives exactly FireUpTo's towers and new projectiles |
| Snapshot.Game.MoveProjectiles | main.go:347-361 | The projectile loop gives exactly ResolveUpTo's kept projectiles and hit points |
| Snapshot.Game.HandleMouseInput | main.go:366-376 | On a press edge below the limit: a tower where CanPlaceTower holds, else the path error with a 120-tick timer. Nothing otherwise |
| Snapshot.Game.TickErrorTimer | main.go:379-384 | The same one-step Countdown as the packaged game |
| Snapshot.Game.Update | main.go:330-389 | The tick goes up, and the enemy moves only while alive. Towers, projectiles and hit points are exactly Fought: FireUpTo at the moved enemy, then ResolveUpTo over the old and new projectiles. A tower is added exactly on a press edge below the limit where CanPlaceTower holds, and the error is the Countdown of the path error or of the old one. The invariant is kept |

## Left out

- Drawing is not modelled: `Draw`, the draw helpers of the HUD, shop, map and main.go, renderer.go, and the game-over and instructions overlays (gameover.go, instructions.go).
- Mouse polling through ebiten, `Layout`, `main`/`RunGame` and all `fmt` logging are not modelled. The mouse state of a tick is given to `Update` as parameters.
- `math.Sqrt` is a parameter `sqrt`. Only the geometric lemmas require it to be exact (`IsSqrt`).
- Coordinates are exact reals: float32 rounding is not modelled.
- Go's `int` is an unbounded integer: 64-bit overflow of the tick and the counters is not modelled.
- Entity.TicksPerShot: requires a non-zero fire rate. In Go, `60 / 0` is +Inf, and converting +Inf to `int` is implementation-dependent (on amd64 it gives the most negative `int`, so `CanFire` would always hold). Every tower the game builds has rate 1.
- Game.Game.AdvanceEnemies: the source updates the counters and the HUD inside the loop, and its game-over test reads `lives` there (game.go:98 and 103). The model counts escapes and kills in the loop and books them afterwards (`Tally`). The final state is the same because lives only go down in the loop: some escape leaves lives at or below 0 exactly when there was an escape and the final lives are at or below 0.
- Game.Game.PlaceTower: requires `|towers| < towerLimit`, the guard its only caller applies before calling it.
- Game.Game.Update: while a wave is active, it does not state what happens to the enemies, the projectiles, the towers' reload times or the exact lives and kills. It states only the invariant, the tick, the button state, the error-timer bound, and that lives never rise, kills never fall and at most one tower is added. The exact effects are the phase methods' own contracts (`SpawnEnemies`, `AdvanceEnemies`, `CheckWaveComplete`, `FireTowers`, `ResolveProjectiles`, `HandleMouseInput`, `TickErrorTimer`). Chaining them through the heap of enemy and projectile objects was too costly to prove.
- Game.Game.Play: the same as Update for a running tick. The wrapper methods `RunWave`, `EnemyPhases`, `TowerPhases` and `MoveEnemies`, and the Snapshot ones `Fight`, `Exchange`, `Shoot`, `Fly` and `Respond`, only pass facts along.
- Game.Game.ResolveProjectiles: in the source, projectiles are values copied into the kept list. The model keeps the projectile objects themselves. No other code holds them, so no aliasing is observable.
- Snapshot.Projectile: the speed field is dropped, since it is always 10. A hit returns the moved value rather than updating a slice element in place.
- Only `maps[0]` is read by the game, as in the source. `maps` holds exactly one map.
- The shop's purchase effects and coin spending do not exist in this code: `HandleClick` only reports an item and affordability.
- The configuration file holds constants only; `Config` carries the values that are used.
- Where the game's documented design and its code differ, the model follows the code. The code has no coins deducted for towers, no tower removal or refunds, and no damage or fire-rate boosts. It has no difficulty scaling and no overlap check between towers. Wave completion tests `spawned >= perWave`, and every projectile strike deals a fixed 10 rather than the tower's damage.

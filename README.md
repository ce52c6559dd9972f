# Top-down shooter: entity simulation and combat engine in Dafny

This project models the simulation core of a browser top-down shooter. The
original is written in JavaScript, in `js/`. The core has these parts:

- **The animation engine.** An `Animation` steps a frame index on a timer.
  An `AnimationManager` selects animations by name.
- **The entity base**, with its damage and death rules and its collision
  geometry.
- **Bullets**, with their trail, lifetime and first-hit collision scan.
- **Particles**: animated explosions and muzzle flashes, and ballistic
  sparks and blood.
- **The player controller.**
- **The two hostile AIs**: soldiers (`Enemy`) and `Zombie`s.
- **The game director (`Game`)**: the per-frame update in its fixed phase
  order, roster pruning, the wave director and the camera.

It then proves what that code promises.

One `.dfy` file corresponds to each JavaScript file:

- `animation.dfy`, `entity.dfy`, `bullet.dfy`, `particle.dfy`,
  `player.dfy`, `enemy.dfy`, `zombie.dfy`, `game.dfy`.
- `target.dfy` holds the target search and state machine that the two AIs
  share.
- `util.dfy` and `host.dfy` hold small helpers and the host environment.
  The host environment covers the trigonometry, the random stream and the
  asset lookup.

Every declaration lives in Dafny's default module. The JavaScript classes
refer to each other in a cycle: a `Bullet` reads the `Game`'s rosters, and
the `Game` updates the `Bullet`. The JavaScript files share one global
scope in the same way.

How the source's forms are kept:

- **Classes with state.** `Player`, `Enemy`, `Zombie`, `Bullet`, `Particle`
  and `Game` are classes. Their methods update the fields in place and
  declare what they modify.
- **Rosters.** The rosters (`enemies`, `zombies`, `bullets`, `particles`)
  are `seq` fields that the methods reassign.
- **The entity base.** The fields of js/Entity.js are one value,
  `Entity`. Each of the three combatant classes holds it in its `body`
  field. The base methods (`update`, `takeDamage`, `die`) become functions
  on that value. The subclasses call them from their own methods, the way
  the JavaScript overrides call `super`.
- **Animations** are values that the entity owns (`Animation`,
  `AnimationManager`). In JavaScript, the manager's current animation is
  the same object as the registered one. `play` always resets the
  animation it switches to, so a value copy behaves the same way.
- **`forEach` over a roster.** This is modelled as the source runs it.
  The length is captured first. An index that has run past the roster's
  current end is skipped. So when a bullet or particle removes itself
  during the loop, the element after it is not updated that frame. The
  same holds for soldiers and zombies: a dead one whose death animation
  has finished removes itself (`removeEnemy`, js/Enemy.js:116-118;
  `removeZombie`, js/Zombie.js:72-74), and the next one in the roster is
  skipped that frame.
- **Loops** with a running minimum, a first match or a counted push stay
  `while`/`for` loops with invariants. `findTarget`, the collision scan,
  the trail fade and the pruning filters are each proved equal to a
  specification function (`NearestOf`, `FirstHit`, `Faded`, `Filter`), and
  the lemmas are about that function. The `spawnWave` loops are specified
  by what they append: exactly the wave's count of new hostiles after the
  old roster, each satisfying the wave's stats predicate.
- **Squared distances.** Distances are compared squared against squared
  ranges. `Math.cos`, `Math.sin` and `Math.atan2` are uninterpreted
  functions that the caller passes in (`MathLib`).
- **Randomness.** `Math.random` is a stream of values in `[0, 1)` that the
  caller gives. The contracts say which draw feeds which field.

Three behaviours of the code are easy to misread; the model follows the
code:

- **Negative damage.** A negative damage amount raises health, with no cap
  at `maxHealth` (js/Entity.js:93-94). So neither "damage never heals" nor
  "health never exceeds maxHealth" holds. `NegativeDamageHeals` states
  this. The between-wave heal is capped (`Heal`).
- **Player death animation.** Dying is meant to play the "death"
  animation. The hero tables register it as "die" (`PlayerTable`), and
  `play` ignores a name that is not registered (`AnimationManager.Play`).
  So a dying player keeps its last animation.
- **Velocity after death.** Death zeroes the velocity of soldiers and
  zombies only. A zombie that has a target gets the knockback velocity even
  from the blow that kills it. While its death animation plays, it then
  drifts (js/Zombie.js:198-214, `Zombie.TakeDamage`).

## Model

| member | source | states |
|---|---|---|
| `Animation.Update` | js/Animation.js:12-30 | A finished one-shot animation is frozen. Below one frame duration the timer only accumulates. Otherwise the timer restarts and the index advances by exactly one step: a loop wraps to 0, and a one-shot clamps to the last frame and latches `finished`. A valid index stays valid, and a loop's `finished` never changes. |
| `Animation.GetCurrentFrame` | js/Animation.js:32-34 | The frame at the current index; nothing when the frame list is empty. |
| `Animation.Reset` | js/Animation.js:36-40 | Index 0, timer 0, not finished; frames, rate and loop unchanged; the current frame is then the first. |
| `NewAnimation` | js/Animation.js:2-10 | Starts at frame 0, timer 0, not finished; frame duration × frame rate = 1000 ms. |
| `LoopingNeverFinishes` | js/Animation.js:21-23 | No sequence of updates ever sets `finished` on a looping animation, and they keep its index valid. |
| `FinishedIsFrozen` | js/Animation.js:13 | A finished one-shot animation is unchanged by any sequence of updates. |
| `OneShotFinishes` | js/Animation.js:17-28 | With ticks no shorter than a frame, a one-shot animation is finished on its last frame after exactly as many updates as it has frames left. |
| `OneShotSteps` | js/Animation.js:13 | Any number of equal ticks leaves a finished one-shot animation unchanged. |
| `AnimationManager.AddAnimation` | js/Animation.js:55-57 | Registers or replaces exactly that name; every other registration and the current selection are kept. |
| `AnimationManager.Play` | js/Animation.js:59-67 | No change when the name is already current and not forced, or is unregistered. Otherwise it switches to that animation, reset, and keeps the registry. |
| `AnimationManager.Update` | js/Animation.js:69-73 | Steps only the current animation, if any; registry, name and flag unchanged. |
| `AnimationManager.GetCurrentFrame` | js/Animation.js:75-80 | Null when there is no current animation or it has no frames, else its current frame. |
| `AnimationManager.ForceFinish` | js/Animation.js:82-88 | Setting the manager's `finished` flag makes it report finished, whatever the current animation says. |
| `NewAnimationManager` | js/Animation.js:48-53 | Empty registry, nothing current, not finished. |
| `PlayIdempotent` | js/Animation.js:59-67 | Playing the same name twice equals playing it once. |
| `FinishedStaysFinished` | js/Animation.js:82-88 | A manager that reports finished still does after an update. |
| `ForcedFinishIsPermanent` | js/Animation.js:82-83 | Once the manager's flag is set, no `play` or `update` makes it report unfinished. |
| `OverlapsSymmetric` | js/Entity.js:115-123 | Box collision is symmetric. |
| `EdgeContactIsNoCollision` | js/Entity.js:119-122 | Boxes that only touch at an edge do not collide (strict inequalities). |
| `OverlapsItself` | js/Entity.js:115-123 | A box of positive size collides with itself. |
| `Entity.Move` | js/Entity.js:17-21 | Position advances by velocity × dt / 1000 and the animation steps; nothing else changes. |
| `Entity.Die` | js/Entity.js:101-104 | Not alive, the "death" animation requested; nothing else changes. |
| `Entity.Update` | js/Entity.js:17-26 | Health unchanged. The entity stays alive exactly when it was alive with health left. Death fires exactly when it was alive at health ≤ 0. The invariant `Sound` is preserved. |
| `Entity.ReduceHealth` | js/Entity.js:93-94 | Health becomes max(0, health − amount): never negative, and never above the old health for a non-negative amount. |
| `Entity.TakeDamage` | js/Entity.js:90-99 | A dead entity is unchanged. A live one loses health, floored at 0, and is alive afterwards exactly when health is left; it dies exactly when health reached 0. Damage never revives. |
| `Entity.DistanceSq` | js/Entity.js:125-129 | The squared distance is never negative. |
| `DistanceSymmetric` | js/Entity.js:125-129 | Distance is symmetric. |
| `DistanceToSelf` | js/Entity.js:125-129 | An entity is at distance 0 from itself and from anything at its position. |
| `NewEntity` | js/Entity.js:2-15 | At rest, 100 of 100 health, alive, facing right, neutral, with an empty animation manager. |
| `DeadIgnoreDamage` | js/Entity.js:91 | `takeDamage` on a dead entity changes nothing. |
| `NegativeDamageHeals` | js/Entity.js:93-94 | A negative amount raises health by its magnitude, with no cap, and keeps the entity alive. |
| `DeathIsFinal` | js/Entity.js:101-102 | After any sequence of ticks and hits, a dead entity is still dead and its health unchanged. |
| `SoundAlways` | js/Entity.js:90-99 | Ticks and hits preserve: health ≥ 0, and a live entity has health left. |
| `Registrations` | js/Player.js:71-74 | Every registered animation has frames, is well formed, and comes from the sprite's table. |
| `SetupAnimations` | js/Player.js:55-79 | The registration loop registers exactly `Registrations`, with nothing playing yet. |
| `RegisteredIffFound` | js/Player.js:120-123 | A name is registered exactly when its table row found at least one frame. |
| `CollectFrames` | js/Particle.js:10-14 | The frame loop returns the frames the lookup found, in order, at most `frameCount` of them. |
| `AllFramesFound` | js/Particle.js:11-13 | When every lookup succeeds, the frames are exactly the looked-up images, in order. |
| `Particle.constructor` | js/Particle.js:2-43 | For each of the four kinds: size, lifetime, gravity, the velocity from the random draws, and for animated kinds the collected frames (at most `frameCount`) in a one-shot animation at 30 or 20 fps. |
| `Particle.Update` | js/Particle.js:45-72 | A dead particle is unchanged. An animated one steps its animation and is destroyed exactly when it is finished. A physics one moves, only blood gets gravity, a non-zero `vx` is damped by 0.98, and lifetime drops by dt; it is destroyed exactly when lifetime ≤ 0. |
| `Particle.Destroy` | js/Particle.js:74-80 | Not alive, and removed from the particle roster by identity; the roster is unchanged if it was absent. |
| `ExplosionEnds` | js/Particle.js:15-17 | An explosion with frames finishes after as many long-enough updates as it has frames. |
| `CreateExplosion` | js/Particle.js:114-127 | Appends one explosion and fifteen sparks, all new and alive, and keeps the old particles. |
| `CreateBloodSplatter` | js/Particle.js:129-139 | Appends ten new blood particles and keeps the old ones. |
| `CreateDeathEffect` | js/Particle.js:141-158 | Appends ten blood particles for a zombie and eight sparks for any other team. |
| `AddParticles` | js/Game.js:540-548 | Appends exactly `count` new, alive particles of the kind, after the old ones. |
| `Without` | js/Bullet.js:113-116 | Removal by identity: an absent element changes nothing, a present one shortens the roster by one, nothing new appears, and every other element stays. |
| `WithoutMultiset` | js/Bullet.js:113-116 | Exactly one occurrence of the removed element goes and every other element stays. |
| `AliveEnemiesExact` | js/Game.js:353 | The alive-soldier list holds exactly the living soldiers of the roster, with their bodies. |
| `AliveZombiesExact` | js/Game.js:354 | The same for zombies. |
| `OpponentsSound` | js/Bullet.js:57-73 | Every collision or target candidate is a living member of the game, of another team, with its current body. |
| `OpponentsComplete` | js/Bullet.js:57-73 | Every living player, soldier or zombie of another team is a candidate. |
| `NearestOf` | js/Enemy.js:132-155 | The pick is a candidate strictly inside the detection range. |
| `NearestOfIsNearestPick` | js/Zombie.js:88-113 | `NearestOf` is the first strictly-nearest candidate strictly inside the range, or none when no candidate is in range. |
| `Nearest` | js/Enemy.js:133-154 | The running-minimum loop computes `NearestOf`. |
| `NearestPickUnique` | js/Enemy.js:132-155 | The target is determined uniquely (ties go to the first scanned). |
| `NearestPickIsNearest` | js/Zombie.js:88-113 | No candidate is nearer than the target, and the target is in range. |
| `DamageTarget` | js/Bullet.js:77 | The target takes the damage through the entity rule. |
| `Engage` | js/Enemy.js:160-185 | Attack iff a living target is strictly within attack range; chase iff a living target is farther; patrol or wander iff none. |
| `StrikeStep` | js/Enemy.js:163-189 | Fires iff attacking with cooldown ≤ 0; firing resets the cooldown to the rate; the cooldown then drops by dt only while positive. |
| `NoStrikeWhileCooling` | js/Enemy.js:187-189 | No shot or bite happens while the frames' total time is below the cooldown. |
| `StrikeThenWait` | js/Zombie.js:126-145 | From a ready cooldown, frames shorter in total than the rate yield exactly one strike. |
| `RoamTimer` | js/Enemy.js:193-199 | The patrol or wander timer accumulates and resets to 0 once it reaches the duration; it stays in [0, duration). |
| `HostileSettle` | js/Enemy.js:262-266 | The entity tick for a hostile: health kept; dying zeroes the velocity; otherwise a plain move. |
| `KeepInWorld` | js/Enemy.js:128-129 | Position clamped into [0, world − size] on each axis, unchanged when already inside; nothing else changes. |
| `PushTrail` | js/Bullet.js:29-32 | The trail gains the pre-move point last, keeps its most recent older entries in order, and never exceeds the limit. |
| `Fade` | js/Bullet.js:34-36 | The alpha loop computes `Faded`. |
| `FadedAlphas` | js/Bullet.js:34-36 | Positions kept, alphas in (0, 0.5], strictly increasing along the trail, the newest 0.5. |
| `TrailBounded` | js/Bullet.js:29-32 | Over any number of moves the trail stays at most 5 long. |
| `FirstHit` | js/Bullet.js:75-96 | A hit is a candidate whose box contains the bullet point, bounds inclusive; no hit means no candidate does. |
| `FirstHitIsFirst` | js/Bullet.js:75-87 | The hit is the first candidate in scan order that contains the point. |
| `Bullet.constructor` | js/Bullet.js:2-22 | Alive, 2000 ms lifetime, empty trail, speed 600 along the angle. |
| `Bullet.Update` | js/Bullet.js:24-54 | A dead bullet changes nothing. A live one pushes and fades its trail, moves and loses dt of lifetime. It is destroyed, without a collision check or a random draw, when the lifetime has run out or it left the world. Otherwise the candidates are the living opponents (player, then soldiers, then zombies) and it hits the first whose box contains it: that target takes the bullet's damage through its own damage rule, no other combatant changes, a killing player bullet credits one kill and 100 points, and the bullet is destroyed with three sparks. With no hit it stays alive and no combatant, bullet, particle or random draw changes. |
| `Bullet.Resolve` | js/Bullet.js:41-53 | Expiry or leaving the world destroys the bullet and touches nothing else. Otherwise the collision scan runs on the living opponents: a miss changes no combatant and draws nothing; a hit damages the first target through its damage rule, leaves every other combatant unchanged and credits a killing player bullet with one kill and 100 points. |
| `Bullet.Advance` | js/Bullet.js:27-42 | Trail, position and lifetime as in `Bullet.Update`. |
| `Bullet.CheckCollisions` | js/Bullet.js:56-88 | At most one entity is damaged per update: the first living opponent in the order player, soldiers, zombies whose box contains the bullet. No other combatant is touched. A kill by a player bullet credits one kill and 100 points. The bullet is then destroyed with three sparks. |
| `Bullet.Scan` | js/Bullet.js:57-75 | The candidate list is exactly the living opponents in scan order, and the hit is the first containing one. |
| `Bullet.Impact` | js/Bullet.js:76-85 | Damage, kill credit, three sparks and removal of this bullet; no other combatant changes. |
| `Bullet.Strike` | js/Bullet.js:77-81 | The target takes the bullet's damage; the player is credited exactly when a player bullet killed it. |
| `Bullet.FindHit` | js/Bullet.js:75-87 | The scan loop with `break` computes `FirstHit`. |
| `Bullet.CreateImpactEffect` | js/Bullet.js:98-109 | Appends three new sparks. |
| `Bullet.Destroy` | js/Bullet.js:111-117 | Not alive, and removed from the bullet roster by identity only. |
| `Steer` | js/Player.js:221-252 | Crouch sets `vx` to 0 and nothing else. Left wins over right, either sets full speed, neither damps by 0.85, and the same holds vertically with up over down. A jump happens iff grounded, not crouching and jump held; it clears `isGrounded`, which nothing sets again. |
| `SteerKeepsSpeedCap` | js/Player.js:229-245 | Steering never pushes speed beyond the player's speed horizontally or the jump force vertically. |
| `AtMostOneJump` | js/Player.js:247-251 | Over any input sequence the player jumps at most once, and not at all if it starts in the air. |
| `CooldownTick` | js/Player.js:255-257 | The cooldown drops only while positive and never rises. |
| `ShootStep` | js/Player.js:254-266 | A shot happens iff shoot is held and the ticked cooldown is ≤ 0; it resets the cooldown to the rate; `isShooting` holds iff fired or still held while shooting. |
| `NoShotWhileCooling` | js/Player.js:255-262 | No shot while the elapsed time is below the cooldown. |
| `HeldTriggerFiresEachSlowFrame` | js/Player.js:255-262 | A held trigger fires on every frame at least as long as the rate. |
| `PlayerAnimationName` | js/Player.js:301-319 | Priority: crouch, then shoot, then jump, then run above 150, then walk above 50, then idle. |
| `PlayerTable` | js/Player.js:33-127 | Only "die" and "hurt" are one-shot; every rate is non-zero. |
| `Player.constructor` | js/Player.js:2-31 | At the given position, 100 health, alive, player team, grounded, no cooldown, no score, with its animations registered and "idle" playing. |
| `Player.SetInput` | js/Player.js:129-196 | The key snapshot and pointer are what the listeners last recorded. |
| `Player.Update` | js/Player.js:198-219 | A dead player only does the entity tick and fires nothing. A live one ends in the state `Lived` gives: body `LiveBody` of the old one (steered by `Steer`, turned to the pointer, animated by `PlayerAnimationName`, ticked, clamped), jump flags by `Steer`, cooldown and shooting by `ShootStep`, and one player bullet and one muzzle flash exactly when it fired. Score, kills and input are untouched. Either way it is dead afterwards exactly when it was dead or had no health left. |
| `Player.Live` | js/Player.js:204-218 | The same new state (`Lived`) for a living player; its health is kept and it dies exactly when it had none; it ends inside the world. |
| `Player.Turn` | js/Player.js:204-210 | Velocity and jump flags become `Steer` of the old motion state, and the facing follows the pointer (`TurnedBody`). |
| `Player.Fire` | js/Player.js:211-218 | Cooldown and shooting by `ShootStep`, one bullet and one muzzle flash exactly on a shot, and the body settled by the resulting animation (`SettledBody`); it ends inside the world. |
| `Player.FacePointer` | js/Player.js:206-210 | With a pointer, the player faces it (in world coordinates); without one, nothing changes. |
| `Player.Settle` | js/Player.js:213-218 | The body becomes `SettledBody`: the priority animation, the entity tick, then clamping into the world, where it stays. |
| `Player.HandleMovement` | js/Player.js:221-252 | The motion state becomes `Steer` of the old one; nothing else in the body changes. |
| `Player.HandleShooting` | js/Player.js:254-266 | Cooldown and flag by `ShootStep`; a shot appends one new player bullet and one muzzle flash. |
| `Player.Shoot` | js/Player.js:268-299 | Appends one new live player bullet at the aim angle, 32 px out from the centre, and one muzzle flash of at most five frames. |
| `Player.UpdateAnimation` | js/Player.js:301-319 | A live player plays the priority animation; a dead one is unchanged. |
| `Player.TakeDamage` | js/Player.js:321-331 | The entity damage rule, then a forced "hurt" animation if still alive; health never negative. |
| `Player.HurtTimerFired` | js/Player.js:325-329 | The hurt timer reselects the priority animation for a live player. |
| `Player.AddScore` | js/Player.js:333-335 | Score rises by exactly the points. |
| `Player.AddKill` | js/Player.js:337-340 | Kills rise by exactly 1 and score by exactly 100. |
| `EnemyTable` | js/Enemy.js:26-111 | Only "death" and "hurt" are one-shot; "run" at 12 fps, the rest at 8. |
| `EnemyAnimationName` | js/Enemy.js:228-248 | Shoot iff attacking; run when chasing or patrolling faster than 10; idle otherwise. |
| `Enemy.constructor` | js/Enemy.js:2-24 | Alive soldier, 80 health, enemy team, patrolling, with speed, fire rate, patrol direction and duration from four random draws. |
| `Enemy.Update` | js/Enemy.js:113-130 | A dead soldier only moves and leaves the roster once its animation is finished. A live one stays listed, keeps its health and dies exactly when it had none. |
| `Enemy.Decay` | js/Enemy.js:114-120 | The dead branch: entity tick, then removal once finished. |
| `Enemy.Live` | js/Enemy.js:122-129 | The target is the nearest living player or zombie strictly in range. The state follows `Engage` and the cooldown `StrikeStep`. The body is `EnemyPose` for that state (stopped and facing the target, full speed towards it, or half speed along the patrol direction), then `EnemySettled` (animation, hostile tick, clamp). The patrol timer follows `RoamTimer` while patrolling and is kept otherwise; a patrol leg that runs out takes its new duration (2000 + 3000·r) and direction (2π·r) from the next two random draws, and otherwise duration and direction are kept. Each shot adds exactly one enemy bullet. It ends inside the world. |
| `Enemy.Act` | js/Enemy.js:123-129 | The same new state, given the chosen target, including the patrol leg's duration and direction. |
| `Enemy.Settle` | js/Enemy.js:124-129 | The body becomes `EnemySettled`: the state's animation, the hostile tick, the clamp. |
| `Enemy.FindTarget` | js/Enemy.js:132-155 | `NearestOf` over the living player and zombies, never itself or another soldier. |
| `Enemy.UpdateBehavior` | js/Enemy.js:157-190 | The state follows `Engage`; the body becomes `EnemyPose` for it (attack: stop and face the target; chase: full speed towards it; patrol: half speed along the patrol direction, with `RoamTimer`; an expired leg redraws duration and direction, which are kept otherwise). It fires iff attacking with the cooldown ≤ 0, and the cooldown follows `StrikeStep`. |
| `Enemy.HoldAndFire` | js/Enemy.js:163-173 | The attack pose (`EnemyPose`); fires and resets the cooldown iff it was ≤ 0. |
| `Enemy.Pursue` | js/Enemy.js:174-180 | Chase state; the chase pose, full speed along the angle to the target. |
| `Enemy.Patrol` | js/Enemy.js:192-205 | Timer rule; a new duration and direction from two draws when it expires; the patrol pose at half speed. |
| `Enemy.Shoot` | js/Enemy.js:207-226 | With a target: one new enemy bullet from the centre towards it and one muzzle flash; without one: nothing. |
| `Enemy.UpdateAnimation` | js/Enemy.js:228-248 | A live soldier plays the state's animation. |
| `Enemy.EntityUpdate` | js/Entity.js:17-26 | The entity tick with the soldier's `die`. |
| `Enemy.TakeDamage` | js/Enemy.js:250-260 | A dead soldier is unchanged. A live one takes the entity damage rule; if it survives, "hurt" is forced; a killing blow zeroes the velocity instead. |
| `Enemy.Die` | js/Enemy.js:262-272 | Not alive, at rest, "death" requested. |
| `Enemy.HurtTimerFired` | js/Enemy.js:254-258 | Reselects the state's animation for a live soldier. |
| `Enemy.DeathTimerFired` | js/Enemy.js:269-271 | The manager reports finished from then on. |
| `ZombieTable` | js/Zombie.js:29-67 | All at 8 fps; only "death" and "hurt" are one-shot. |
| `ZombieAnimationName` | js/Zombie.js:172-190 | Attack iff attacking; walk when chasing or wandering faster than 10; idle otherwise. |
| `SwitchAnimation` | js/Zombie.js:192-195 | The state name becomes the new name; `play` of it exactly when it changes, nothing otherwise. |
| `SwitchAnimationIdempotent` | js/Zombie.js:192-195 | Applying the switch twice equals applying it once. |
| `Zombie.constructor` | js/Zombie.js:2-27 | Alive zombie, 60 health, zombie team, wandering, type "Zombies01" by default, with speed, direction and duration from three draws. |
| `Zombie.Update` | js/Zombie.js:69-86 | A dead zombie only moves and leaves the roster once finished. A live one stays listed and adds no particles. |
| `Zombie.Decay` | js/Zombie.js:70-76 | The dead branch: entity tick, then removal once finished. |
| `Zombie.Act` | js/Zombie.js:79-85 | Given the chosen target: the state follows `Engage` and the cooldown `StrikeStep`. The body is `ZombiePose` for that state (stopped, full speed towards the target, or 0.3 speed along the wander direction), then `ZombieSettled` (animation switch, hostile tick, clamp, "death" recorded on dying). The wander timer follows `RoamTimer` while wandering and is kept otherwise; a wander leg that runs out takes its new duration (3000 + 2000·r) and direction (2π·r) from the next two random draws, and otherwise duration and direction are kept. A bite lands on the target through the damage rule; without one the target is untouched. It ends inside the world. |
| `Zombie.Settle` | js/Zombie.js:80-85 | Body and state name become `ZombieSettled`: animation switch, hostile tick, clamping, and "death" on dying. |
| `Zombie.FindTarget` | js/Zombie.js:88-113 | `NearestOf` over the living player and soldiers, never itself or another zombie. |
| `Zombie.UpdateBehavior` | js/Zombie.js:115-146 | The state follows `Engage`; the body becomes `ZombiePose` for it (attack: stop; chase: full speed towards the target; wander: 0.3 speed with `RoamTimer`; an expired leg redraws duration and direction, which are kept otherwise). It bites iff attacking with the cooldown ≤ 0, and the cooldown follows `StrikeStep`; the wander timer stays below its duration. |
| `Zombie.HoldAndBite` | js/Zombie.js:121-129 | The attack pose (stopped); bites and resets the cooldown iff it was ≤ 0. |
| `Zombie.Pursue` | js/Zombie.js:130-138 | Chase state; the chase pose, full speed along the angle to the target. |
| `Zombie.Wander` | js/Zombie.js:148-161 | Timer rule; a new duration and direction from two draws when it expires; the wander pose at 0.3 speed. |
| `Zombie.Attack` | js/Zombie.js:163-167 | Damage lands only while the target is strictly within attack range. |
| `Zombie.UpdateAnimationState` | js/Zombie.js:169-196 | A live zombie switches to its state's animation only when the name changes. |
| `Zombie.EntityUpdate` | js/Entity.js:17-26 | The entity tick with the zombie's `die`. |
| `Zombie.TakeDamage` | js/Zombie.js:198-207 | The whole new state: the entity damage rule, a killing blow zeroes the velocity and records "death"; then, with a target, a knockback of 50 away from it, even on a killing blow. |
| `Zombie.Die` | js/Zombie.js:209-220 | Not alive, at rest, "death" requested and recorded. |
| `Zombie.DeathTimerFired` | js/Zombie.js:216-219 | The manager reports finished from then on. |
| `Game.constructor` | js/Game.js:2-40 | Menu state, empty rosters, wave 1, no player, nothing loaded. |
| `Game.CreateDeathExplosion` | js/Game.js:535-564 | Twelve new sparks, and eight blood particles after them for a zombie; the old particles are kept. |
| `Game.RemoveEnemy` | js/Game.js:566-572 | A listed soldier is removed by identity with its debris; an unlisted one changes nothing. |
| `Game.RemoveZombie` | js/Game.js:574-580 | The same for zombies. |
| `Game.SelectHero` | js/Game.js:68-74 | Remembers the chosen hero. |
| `Game.FinishLoading` | js/Game.js:158-173 | From then on a game can start. |
| `Game.StartGame` | js/Game.js:192-215 | Nothing before the assets are in. Otherwise: playing, wave 1, a fresh live hero in the middle of the world, and the first wave's counts spawned. |
| `Game.PlaceHero` | js/Game.js:198-203 | The new hero is fresh, alive, centred and without score. |
| `Game.EnemyCount` | js/Game.js:244-247 | Between 3 and 10 soldiers. |
| `Game.ZombieCount` | js/Game.js:249-252 | Between 6 and 20 zombies. |
| `Game.WaveSizesGrow` | js/Game.js:244-252 | Both counts are monotone in the wave. |
| `Game.WaveSizesCap` | js/Game.js:244-252 | The caps are reached exactly from wave 14 (soldiers) and wave 20 (zombies). |
| `Game.SpawnWave` | js/Game.js:239-299 | Appends exactly the wave's counts of new soldiers and zombies, each with the wave's stats, after the old ones. |
| `Game.SpawnEnemies` | js/Game.js:257-276 | The soldier loop appends exactly `EnemyCount(wave)` wave soldiers. |
| `Game.SpawnEnemy` | js/Game.js:258-273 | A new soldier, alive, with health = maxHealth = 80 + 10·wave and speed 80 + 5·wave, placed within [64, world − 64]; its type is `enemyTypes[floor(4·r)]` for the third draw r. |
| `Game.EnemySpot` | js/Game.js:258-266 | Exactly three draws: the first sets the angle (the soldier's share of the circle plus up to 0.5 rad), the second the distance (400 to 700 px) from the player, the third the type `enemyTypes[floor(4·r)]`. |
| `Game.SpawnZombies` | js/Game.js:279-298 | The zombie loop appends exactly `ZombieCount(wave)` wave zombies. |
| `Game.SpawnZombie` | js/Game.js:280-295 | A new zombie, alive, with health = maxHealth = 60 + 8·wave and speed 40 + 3·wave, placed within [64, world − 64]; its type is `zombieTypes[floor(3·r)]` for the third draw r, or the zombie default when that entry is empty. |
| `Game.ZombieSpot` | js/Game.js:280-288 | Exactly three draws: the first sets the angle (2π·r), the second the distance (300 to 700 px) from the player, the third the type `zombieTypes[floor(3·r)]`. |
| `Game.GameLoop` | js/Game.js:301-313 | Outside play nothing changes. In play, the frame's delta is the clamped elapsed time, and the game stays playing or ends. |
| `Game.Update` | js/Game.js:315-374 | The game is over exactly when the player is dead after its own update, that is when it was dead or had no health left before it (js/Game.js:321-324). If the game ends and no hostile, bullet or particle was updated. Otherwise the rosters hold no finished corpse, only live bullets and particles, and every soldier or zombie of the old rosters still alive is still listed. The wave rises by at most one, and the wave timer stays in [0, waveDelay). |
| `Game.PlayerTurn` | js/Game.js:317-318 | The player updates itself: it is dead afterwards exactly when it was dead or had no health left. The camera then follows it (`CameraAxis` on each axis). Bullets and particles are the old ones or new. |
| `Game.UpdateWorld` | js/Game.js:327-373 | The same after the roster phases, pruning and the wave check. |
| `Game.Tidy` | js/Game.js:332-373 | The pruning and the wave check: no finished corpse, only live bullets and particles, nobody alive dropped from a roster, the wave clock as above. |
| `Game.UpdateRosters` | js/Game.js:327-330 | The four `forEach` phases, in order. Afterwards every roster entry was there before or is new, and no soldier or zombie that is alive was dropped. |
| `Game.UpdateEnemies` | js/Game.js:327 | The soldier phase adds no soldier, drops none that is alive afterwards, and adds only new bullets and particles. |
| `Game.UpdateZombies` | js/Game.js:328 | The zombie phase, likewise for zombies. |
| `Game.UpdateBullets` | js/Game.js:329 | The bullet phase only removes bullets and only adds new particles. |
| `Game.UpdateParticles` | js/Game.js:330 | The particle phase only removes particles. |
| `Game.Prune` | js/Game.js:332-350 | A soldier or zombie stays exactly when it was listed and is alive or still showing its death; a bullet stays exactly when it was listed and is alive; no live particle is lost. |
| `Game.PruneEnemies` | js/Game.js:333-339 | The soldier filter: the roster becomes `Filter` of the old one by `EnemyMask` (kept exactly when alive or not finished, order kept), and 12 to 20 new debris particles are appended per removed soldier. |
| `Game.PruneZombies` | js/Game.js:341-347 | The zombie filter, likewise with `ZombieMask`. |
| `Game.SweepBullets` | js/Game.js:349 | The roster becomes `Filter` of the old one by `BulletMask`: a bullet is kept iff alive, in order. |
| `Game.SweepParticles` | js/Game.js:350 | A particle is kept iff alive. |
| `Game.CheckWave` | js/Game.js:352-373 | The timer follows `WaveTick` on "no soldier or zombie alive". An advance raises the wave by one, adds `WaveBonus`, heals by `Heal` and spawns the next wave's counts. Otherwise nothing else changes, and new hostiles are fresh and alive. |
| `Game.UpdateCamera` | js/Game.js:376-382 | Each axis follows `CameraAxis` for the player's position. |
| `Game.GameOver` | js/Game.js:582-590 | The state becomes game over. |
| `Game.ResetGame` | js/Game.js:592-611 | No player, empty rosters, wave 1, timer 0, no hero, menu. |
| `CameraAxis` | js/Game.js:377-381 | The camera is ≥ 0, and within world − viewport when the viewport fits. It centres the player when possible, and always keeps a player inside the world in view. |
| `ClampDelta` | js/Game.js:307 | The delta is at most 100 and at most the elapsed time, and equals one of them. |
| `ClampedRunBounded` | js/Game.js:304-307 | Over any frames, clamped time totals at most 100 per frame and at most real time, and equals it when no frame exceeds 100. |
| `WaveBonus` | js/Game.js:363 | At least 1000, growing by 250 per wave. |
| `Heal` | js/Game.js:367 | Twenty more health, never above the maximum, never below the old health when within it. |
| `WaveTick` | js/Game.js:356-373 | Advance iff cleared and the timer reaches the delay. An advance zeroes the timer; otherwise the timer accumulates when cleared and resets to 0 when not. |
| `WavesArePaced` | js/Game.js:356-373 | Over any frames, the timer stays in [0, delay), and waves × delay never exceed the elapsed time. |
| `FilterKeepsExactly` | js/Game.js:333-350 | The filtered roster holds exactly the entries the mask keeps. |

## Left out

- Rendering is not modelled. This covers every `render`, `renderHealthBar`, `renderGrid` and `renderWave*`, and all canvas drawing. It is pixel output.
- DOM and UI are not modelled: `setupUI`, `updateUI`, the screens, and the DOM parts of `gameOver`, `resetGame` and `startGame`. `console.log` output is not modelled either.
- js/AssetLoader.js and js/main.js are not part of this model. The loader becomes an asset lookup function (`Assets`) that answers "image found" or "absent". Building the asset-key strings is folded into the frame-row lookup.
- `generateEnvironment` is cosmetic scenery and is not modelled. Its `Math.random` draws are not taken from the modelled random stream, so in the model the first wave draws from an earlier stream position than the browser does.
- Input capture (js/Player.js:129-196) becomes `Player.SetInput`, a snapshot of the held keys and the pointer.
- `requestAnimationFrame` becomes a call to `Game.GameLoop` with the frame time.
- The `setTimeout` callbacks become explicit events with no timing: `Player.HurtTimerFired`, `Enemy.HurtTimerFired`, `Enemy.DeathTimerFired`, `Zombie.DeathTimerFired`.
- Trigonometry is not interpreted: `Math.cos`, `Math.sin`, `Math.atan2` and `Math.sqrt` are opaque. So no facts about bullet headings or spawn ring radii are proved beyond the clamping to the world.
- Numbers are exact reals, so floating-point rounding is not modelled. Health and damage are integers, as every value the source assigns to them is.
- The colour strings of sparks and blood are not modelled. Their random draws still advance the stream.
- `handleMovement`'s unused `deltaTime` parameter is dropped.
- Game.Update: requires a player and the playing state. The source's `if (this.player)` skip is not modelled: the playing state always has a player, and the wave check would dereference a missing one.
- Game.UpdateEnemies: states only roster provenance. Each soldier's own update is stated by `Enemy.Update`.
- Game.UpdateZombies: states only roster provenance. Each zombie's update is stated by `Zombie.Update`.
- Game.UpdateBullets: states only roster provenance. Each bullet's update is stated by `Bullet.Update`.
- Game.UpdateParticles: states only roster provenance. Each particle's update is stated by `Particle.Update`.
- Game.UpdateRosters: states only roster provenance, for the same reason.
- Game.GameLoop: states the delta clamp and the outcome state. What a frame does is stated by `Game.Update`.
- Game.CheckWave: states the spawned hostiles by count, freshness and liveness. Their wave stats are stated by `Game.SpawnWave`.
- Bullet.Strike: the kill credit assumes a player is present. In the source, a player bullet outliving its player would throw on `game.player.addKill()`.
- Enemy.Update: for a living soldier, states the roster and health only. Target, behaviour and shooting are stated by `Enemy.Live`.
- Zombie.Update: for a living zombie, states the roster, particles and health only. It runs `Zombie.FindTarget` then `Zombie.Act`, which state the target and everything else.
- Game.PruneEnemies: states the debris per removed soldier as 12 to 20 particles, not the exact count by team (12, or 20 for a zombie-team body).
- Game.PruneZombies: states the debris per removed zombie as 12 to 20 particles, likewise.
- Game.Prune: states membership in both directions, not the order; the order is stated by `Game.PruneEnemies`, `Game.PruneZombies` and `Game.SweepBullets` through `Filter`.

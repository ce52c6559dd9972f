// Soldier enemies (js/Enemy.js): each update an enemy looks for the nearest
// living player or zombie within its detection range, shoots at it from
// inside its attack range, runs at it from outside, and patrols in random
// directions when nothing is in sight.

/** The animation table of an enemy sprite (js/Enemy.js:26-111): "BADGUY_"
    sprites number their frames from 1, the soldiers from 0; running plays
    at 12 fps and everything else at 8; only "death" and "hurt" play once. */
function EnemyTable(enemyType: string): (t: seq<AnimSpec>)
  ensures forall s <- t :: s.frameRate != 0.0
  ensures forall s <- t :: s.loop <==> s.key != "death" && s.key != "hurt"
  ensures forall s <- t :: s.frameRate == (if s.key == "run" then 12.0 else 8.0)
{
  if StartsWith(enemyType, "BADGUY_") then
    [AnimSpec("idle", "run", 1, 4, 8.0, true),
     AnimSpec("run", "run", 1, 4, 12.0, true),
     AnimSpec("shoot", "shoot", 1, 2, 8.0, true),
     AnimSpec("death", "death", 1, 3, 8.0, false),
     AnimSpec("hurt", "hurt", 1, 2, 8.0, false),
     AnimSpec("jump", "jump", 1, 1, 8.0, true)]
  else
    [AnimSpec("idle", "Idle", 0, 2, 8.0, true),
     AnimSpec("run", "Run", 0, 2, 12.0, true),
     AnimSpec("shoot", "Shoot", 0, 1, 8.0, true),
     AnimSpec("death", "Dead", 0, 1, 8.0, false),
     AnimSpec("hurt", "Idle", 0, 1, 8.0, false),
     AnimSpec("jump", "Idle", 0, 1, 8.0, true)]
}

/** updateAnimation's choice (js/Enemy.js:228-248): shooting while
    attacking, running while chasing or patrolling faster than 10 px/s on
    either axis, idle otherwise. */
function EnemyAnimationName(state: Behavior, vx: real, vy: real): (name: string)
  ensures name == "shoot" <==> state == Attack
  ensures name == "run" <==> state == Chase || (state == Behavior.Patrol && (Abs(vx) > 10.0 || Abs(vy) > 10.0))
  ensures name == "idle" <==> state == Wander || (state == Behavior.Patrol && Abs(vx) <= 10.0 && Abs(vy) <= 10.0)
{
  match state
  case Attack => "shoot"
  case Chase => "run"
  case Patrol => if Abs(vx) > 10.0 || Abs(vy) > 10.0 then "run" else "idle"
  case Wander => "idle"
}

/** The velocity and facing updateBehavior gives a living enemy in `state`
    (js/Enemy.js:157-205): it stands still facing a target it attacks, runs
    at full speed along the angle to one it chases, and patrols along
    `direction` at half its speed, facing the way it moves. */
function EnemyPose(b: Entity, state: Behavior, seen: Option<Entity>, speed: real, direction: real, math: MathLib): Entity
  requires state != Wander
  requires state == Attack || state == Chase ==> seen.Some?
{
  match state
  case Attack => b.(vx := 0.0, vy := 0.0, facingRight := seen.value.x > b.x)
  case Chase =>
    var angle := b.AngleTo(seen.value, math);
    b.(vx := math.cos(angle) * speed, vy := math.sin(angle) * speed, facingRight := math.cos(angle) * speed > 0.0)
  case Patrol =>
    b.(vx := math.cos(direction) * speed * 0.5, vy := math.sin(direction) * speed * 0.5,
       facingRight := math.cos(direction) * speed * 0.5 > 0.0)
}

/** EnemyPose for a patrol, written out: the same fields Patrol sets. */
lemma PatrolPose(b: Entity, speed: real, direction: real, math: MathLib)
  ensures EnemyPose(b, Behavior.Patrol, None, speed, direction, math) ==
    b.(vx := math.cos(direction) * speed * 0.5, vy := math.sin(direction) * speed * 0.5,
       facingRight := math.cos(direction) * speed * 0.5 > 0.0)
{
}

/** The tail of a living enemy's update (js/Enemy.js:124-129) on body `b`:
    play the animation for `state`, run the Entity update with the enemy's
    own die(), and clamp into the world. */
function EnemySettled(b: Entity, state: Behavior, dt: real, worldWidth: real, worldHeight: real): Entity
{
  var named := b.(animationManager := b.animationManager.Play(EnemyAnimationName(state, b.vx, b.vy)));
  KeepInWorld(HostileSettle(named, dt), worldWidth, worldHeight)
}

class Enemy {
  var body: Entity
  const enemyType: string
  const assets: Assets
  var speed: real
  const detectionRange: real := 500.0
  const attackRange: real := 300.0
  var shootCooldown: real
  const shootRate: real
  var target: Option<Target>
  /** What the last findTarget saw of its target: the candidate and its
      state at the scan (specification only). */
  ghost var sighting: Option<Sighting>
  var state: Behavior
  var patrolDirection: real
  var patrolTimer: real
  var patrolDuration: real

  /** What every update and hit keeps: the entity is Sound and of the
      enemy's size, and the patrol
      timer is below the current leg's positive duration. */
  predicate Valid()
    reads this
  {
    body.Sound() && body.width == 64.0 && body.height == 64.0 &&
    0.0 < patrolDuration && 0.0 <= patrolTimer < patrolDuration
  }

  /** new Enemy(x, y, type, assetLoader) (js/Enemy.js:2-24). It draws four
      random numbers, in this order: speed, fire interval, patrol direction
      and patrol leg duration. */
  constructor (x: real, y: real, enemyType: string, assets: Assets, rng: Random)
    modifies rng
    ensures body.x == x && body.y == y && body.width == 64.0 && body.height == 64.0
    ensures body.vx == 0.0 && body.vy == 0.0 && body.facingRight && body.alive && body.team == EnemyTeam
    ensures body.health == 80 && body.maxHealth == 80
    ensures body.animationManager ==
      AnimationManager(Registrations(assets, enemyType, EnemyTable(enemyType)), None, "", false).Play("idle")
    ensures this.enemyType == enemyType && this.assets == assets
    ensures speed == 100.0 + rng.draws(old(rng.calls)) * 50.0
    ensures shootRate == 1500.0 + rng.draws(old(rng.calls) + 1) * 1000.0
    ensures patrolDirection == rng.draws(old(rng.calls) + 2) * PI * 2.0
    ensures patrolDuration == 2000.0 + rng.draws(old(rng.calls) + 3) * 3000.0
    ensures rng.calls == old(rng.calls) + 4
    ensures shootCooldown == 0.0 && target.None? && sighting.None? && state == Behavior.Patrol && patrolTimer == 0.0
    ensures Valid()
  {
    var r1: real := rng.Next();
    var r2: real := rng.Next();
    var r3: real := rng.Next();
    var r4: real := rng.Next();
    var m := SetupAnimations(assets, enemyType, EnemyTable(enemyType));
    body := NewEntity(x, y, 64.0, 64.0).(team := EnemyTeam, health := 80, maxHealth := 80,
                                          animationManager := m.Play("idle"));
    this.enemyType := enemyType;
    this.assets := assets;
    speed := 100.0 + r1 * 50.0;
    shootCooldown := 0.0;
    shootRate := 1500.0 + r2 * 1000.0;
    target := None;
    sighting := None;
    state := Behavior.Patrol;
    patrolDirection := r3 * PI * 2.0;
    patrolTimer := 0.0;
    patrolDuration := 2000.0 + r4 * 3000.0;
  }

  /** update(deltaTime, game) (js/Enemy.js:113-130). A dead enemy drifts and
      animates, and leaves the roster once its animation reports finished. A
      living one picks its target, acts, animates, moves and is held inside
      the world. */
  method Update(dt: real, game: Game, math: MathLib, rng: Random)
    modifies this, game`bullets, game`particles, game`enemies, rng
    ensures forall e <- game.enemies :: e in old(game.enemies)
    ensures forall b <- game.bullets :: b in old(game.bullets) || fresh(b)
    ensures forall p <- game.particles :: p in old(game.particles) || fresh(p)
    ensures old(Valid()) && dt >= 0.0 ==> Valid()
    ensures !old(body.alive) ==>
      body == old(body).Move(dt) && game.bullets == old(game.bullets) &&
      game.enemies == if body.animationManager.IsFinished() then Without(old(game.enemies), this) else old(game.enemies)
    ensures old(body.alive) ==>
      game.enemies == old(game.enemies) && body.health == old(body.health) && (body.alive <==> old(body.health) > 0)
  {
    if !body.alive {
      Decay(dt, game, rng);
    } else {
      Live(dt, game, math, rng);
    }
  }

  /** The branch of update for a dead enemy (js/Enemy.js:114-120). */
  method Decay(dt: real, game: Game, rng: Random)
    requires !body.alive
    modifies this`body, game`particles, game`enemies, rng
    ensures forall e <- game.enemies :: e in old(game.enemies)
    ensures forall p <- game.particles :: p in old(game.particles) || fresh(p)
    ensures body == old(body).Move(dt)
    ensures game.enemies == if body.animationManager.IsFinished() then Without(old(game.enemies), this) else old(game.enemies)
  {
    EntityUpdate(dt);
    if body.animationManager.IsFinished() {
      game.RemoveEnemy(this, rng);
    }
  }

  /** The branch of update for a living enemy (js/Enemy.js:122-129). */
  method Live(dt: real, game: Game, math: MathLib, rng: Random)
    requires body.alive
    modifies this`body, this`state, this`shootCooldown, this`patrolTimer, this`patrolDuration,
      this`patrolDirection, this`target, this`sighting, game`bullets, game`particles, rng
    ensures forall b <- game.bullets :: b in old(game.bullets) || fresh(b)
    ensures forall p <- game.particles :: p in old(game.particles) || fresh(p)
    ensures body.health == old(body.health) && (body.alive <==> old(body.health) > 0)
    ensures old(Valid()) && dt >= 0.0 ==> Valid()
    // the target is the nearest living player or zombie in range
    ensures sighting == NearestOf(old(body), old(Opponents(EnemyTeam, game.player, game.enemies, game.zombies)), detectionRange)
    ensures target == Sighted(sighting)
    // it attacks, chases or patrols as that target dictates, and fires one
    // enemy bullet per strike
    ensures var b := Engage(SeenBody(sighting), old(body), attackRange, Behavior.Patrol);
      var s := StrikeStep(b == Attack, old(shootCooldown), dt, shootRate);
      state == b && shootCooldown == s.cooldown &&
      body == EnemySettled(EnemyPose(old(body), b, SeenBody(sighting), speed, patrolDirection, math), b, dt,
                           game.worldWidth, game.worldHeight) &&
      (b == Behavior.Patrol ==> patrolTimer == RoamTimer(old(patrolTimer), old(patrolDuration), dt)) &&
      (b != Behavior.Patrol ==> patrolTimer == old(patrolTimer)) &&
      // a leg that runs out starts a new one from the next two draws
      (b == Behavior.Patrol && old(patrolTimer) + dt >= old(patrolDuration) ==>
        patrolDuration == 2000.0 + rng.draws(old(rng.calls)) * 3000.0 &&
        patrolDirection == rng.draws(old(rng.calls) + 1) * PI * 2.0) &&
      (b != Behavior.Patrol || old(patrolTimer) + dt < old(patrolDuration) ==>
        patrolDuration == old(patrolDuration) && patrolDirection == old(patrolDirection)) &&
      (b == Attack ==> body.vx == 0.0 && body.vy == 0.0) &&
      (s.fired ==>
        |game.bullets| == |old(game.bullets)| + 1 && game.bullets[..|old(game.bullets)|] == old(game.bullets) &&
        game.bullets[|old(game.bullets)|].team == EnemyTeam && game.bullets[|old(game.bullets)|].alive) &&
      (!s.fired ==> game.bullets == old(game.bullets))
    // and it stays inside the world
    ensures old(Valid()) ==>
      0.0 <= body.x <= game.worldWidth - body.width && 0.0 <= body.y <= game.worldHeight - body.height
  {
    FindTarget(game);
    Act(dt, game, math, rng);
  }

  /** What a living enemy does once it has looked for a target
      (js/Enemy.js:123-129): act on it, animate, move and stay inside the
      world. */
  method Act(dt: real, game: Game, math: MathLib, rng: Random)
    requires body.alive
    requires target == Sighted(sighting)
    requires sighting.Some? ==> !sighting.value.target.EnemyTarget? && sighting.value.target.Body() == sighting.value.body
    modifies this`body, this`state, this`shootCooldown, this`patrolTimer, this`patrolDuration,
      this`patrolDirection, game`bullets, game`particles, rng
    ensures forall b <- game.bullets :: b in old(game.bullets) || fresh(b)
    ensures forall p <- game.particles :: p in old(game.particles) || fresh(p)
    ensures body.health == old(body.health) && (body.alive <==> old(body.health) > 0)
    ensures old(Valid()) && dt >= 0.0 ==> Valid()
    ensures var b := Engage(SeenBody(sighting), old(body), attackRange, Behavior.Patrol);
      var s := StrikeStep(b == Attack, old(shootCooldown), dt, shootRate);
      state == b && shootCooldown == s.cooldown &&
      body == EnemySettled(EnemyPose(old(body), b, SeenBody(sighting), speed, patrolDirection, math), b, dt,
                           game.worldWidth, game.worldHeight) &&
      (b == Behavior.Patrol ==> patrolTimer == RoamTimer(old(patrolTimer), old(patrolDuration), dt)) &&
      (b != Behavior.Patrol ==> patrolTimer == old(patrolTimer)) &&
      // a leg that runs out starts a new one from the next two draws
      (b == Behavior.Patrol && old(patrolTimer) + dt >= old(patrolDuration) ==>
        patrolDuration == 2000.0 + rng.draws(old(rng.calls)) * 3000.0 &&
        patrolDirection == rng.draws(old(rng.calls) + 1) * PI * 2.0) &&
      (b != Behavior.Patrol || old(patrolTimer) + dt < old(patrolDuration) ==>
        patrolDuration == old(patrolDuration) && patrolDirection == old(patrolDirection)) &&
      (b == Attack ==> body.vx == 0.0 && body.vy == 0.0) &&
      (s.fired ==>
        |game.bullets| == |old(game.bullets)| + 1 && game.bullets[..|old(game.bullets)|] == old(game.bullets) &&
        game.bullets[|old(game.bullets)|].team == EnemyTeam && game.bullets[|old(game.bullets)|].alive) &&
      (!s.fired ==> game.bullets == old(game.bullets))
    ensures old(Valid()) ==>
      0.0 <= body.x <= game.worldWidth - body.width && 0.0 <= body.y <= game.worldHeight - body.height
  {
    UpdateBehavior(dt, game, math, rng);
    Settle(dt, game);
  }

  /** The tail of a living enemy's update (js/Enemy.js:124-129): pick the
      animation for the new behaviour, run the Entity update, and clamp the
      enemy into the world. */
  method Settle(dt: real, game: Game)
    requires body.alive
    modifies this`body
    ensures body == EnemySettled(old(body), state, dt, game.worldWidth, game.worldHeight)
  {
    UpdateAnimation();
    EntityUpdate(dt);
    body := KeepInWorld(body, game.worldWidth, game.worldHeight);
  }

  /** findTarget(game) (js/Enemy.js:132-155): the nearest living player or
      zombie strictly inside the detection range, the first one scanned on
      a tie, or none. */
  method FindTarget(game: Game)
    modifies this`target, this`sighting
    ensures sighting == NearestOf(body, old(Opponents(EnemyTeam, game.player, game.enemies, game.zombies)), detectionRange)
    ensures target == Sighted(sighting)
    ensures target.Some? ==> target.value.Ref() != this
    ensures sighting.Some? ==>
      var t := sighting.value.target;
      t.From(game.player, game.enemies, game.zombies) && !t.EnemyTarget? && t.Body() == sighting.value.body &&
      sighting.value.body.alive
  {
    var c := Opponents(EnemyTeam, game.player, game.enemies, game.zombies);
    OpponentsSound(EnemyTeam, game.player, game.enemies, game.zombies);
    var pick := Nearest(body, c, detectionRange);
    sighting := pick;
    target := if pick.Some? then Some(pick.value.target) else None;
  }


  /** updateBehavior(deltaTime, game) (js/Enemy.js:157-190): attack a
      living target inside the attack range, chase one outside it, patrol
      without one; then the shot cooldown ticks. */
  method UpdateBehavior(dt: real, game: Game, math: MathLib, rng: Random)
    requires target == Sighted(sighting)
    requires sighting.Some? ==> !sighting.value.target.EnemyTarget? && sighting.value.target.Body() == sighting.value.body
    modifies this`body, this`state, this`shootCooldown, this`patrolTimer, this`patrolDuration,
      this`patrolDirection, game`bullets, game`particles, rng
    ensures var b := Engage(SeenBody(sighting), old(body), attackRange, Behavior.Patrol);
      var s := StrikeStep(b == Attack, old(shootCooldown), dt, shootRate);
      state == b && shootCooldown == s.cooldown &&
      body == EnemyPose(old(body), b, SeenBody(sighting), speed, patrolDirection, math) &&
      (b == Behavior.Patrol ==> patrolTimer == RoamTimer(old(patrolTimer), old(patrolDuration), dt)) &&
      (b != Behavior.Patrol ==> patrolTimer == old(patrolTimer)) &&
      // a leg that runs out starts a new one from the next two draws
      (b == Behavior.Patrol && old(patrolTimer) + dt >= old(patrolDuration) ==>
        patrolDuration == 2000.0 + rng.draws(old(rng.calls)) * 3000.0 &&
        patrolDirection == rng.draws(old(rng.calls) + 1) * PI * 2.0) &&
      (b != Behavior.Patrol || old(patrolTimer) + dt < old(patrolDuration) ==>
        patrolDuration == old(patrolDuration) && patrolDirection == old(patrolDirection)) &&
      (s.fired ==>
        |game.bullets| == |old(game.bullets)| + 1 && game.bullets[..|old(game.bullets)|] == old(game.bullets) &&
        fresh(game.bullets[|old(game.bullets)|]) && game.bullets[|old(game.bullets)|].team == EnemyTeam &&
        game.bullets[|old(game.bullets)|].alive &&
        |game.particles| == |old(game.particles)| + 1 && game.particles[..|old(game.particles)|] == old(game.particles) &&
        fresh(game.particles[|old(game.particles)|])) &&
      (!s.fired ==> game.bullets == old(game.bullets) && game.particles == old(game.particles))
    ensures old(patrolDuration) > 0.0 && old(patrolTimer) < old(patrolDuration) && 0.0 <= old(patrolTimer) && dt >= 0.0 ==>
      0.0 < patrolDuration && 0.0 <= patrolTimer < patrolDuration
  {
    if target.Some? && target.value.Body().alive {
      var tb := target.value.Body();
      if body.DistanceSq(tb) < attackRange * attackRange {
        HoldAndFire(tb, game, math, rng);
      } else {
        Pursue(tb, math);
      }
    } else {
      state := Behavior.Patrol;
      Patrol(dt, math, rng);
    }
    if shootCooldown > 0.0 {
      shootCooldown := shootCooldown - dt;
    }
  }

  /** The attack branch of updateBehavior (js/Enemy.js:163-173): stand,
      face the target, and fire when the cooldown is spent. */
  method HoldAndFire(tb: Entity, game: Game, math: MathLib, rng: Random)
    requires target.Some? && tb == target.value.Body()
    modifies this`body, this`state, this`shootCooldown, game`bullets, game`particles, rng
    ensures state == Attack
    ensures body == EnemyPose(old(body), Attack, Some(tb), speed, patrolDirection, math)
    ensures shootCooldown == if old(shootCooldown) <= 0.0 then shootRate else old(shootCooldown)
    ensures old(shootCooldown) <= 0.0 ==>
      |game.bullets| == |old(game.bullets)| + 1 && game.bullets[..|old(game.bullets)|] == old(game.bullets) &&
      fresh(game.bullets[|old(game.bullets)|]) && game.bullets[|old(game.bullets)|].team == EnemyTeam &&
      game.bullets[|old(game.bullets)|].alive &&
      |game.particles| == |old(game.particles)| + 1 && game.particles[..|old(game.particles)|] == old(game.particles) &&
      fresh(game.particles[|old(game.particles)|])
    ensures old(shootCooldown) > 0.0 ==> game.bullets == old(game.bullets) && game.particles == old(game.particles)
  {
    state := Attack;
    body := body.(vx := 0.0, vy := 0.0, facingRight := tb.x > body.x);
    if shootCooldown <= 0.0 {
      Shoot(game, math, rng);
      shootCooldown := shootRate;
    }
  }

  /** The chase branch of updateBehavior (js/Enemy.js:174-180): run
      straight at the target at full speed. */
  method Pursue(tb: Entity, math: MathLib)
    modifies this`body, this`state
    ensures state == Chase
    ensures body == EnemyPose(old(body), Chase, Some(tb), speed, patrolDirection, math)
  {
    state := Chase;
    var angle := body.AngleTo(tb, math);
    body := body.(vx := math.cos(angle) * speed, vy := math.sin(angle) * speed);
    body := body.(facingRight := body.vx > 0.0);
  }

  /** patrol(deltaTime) (js/Enemy.js:192-205): when the leg is over, a new
      leg starts with a fresh random duration and direction; the enemy walks
      along the leg at half its speed. */
  method Patrol(dt: real, math: MathLib, rng: Random)
    modifies this`patrolTimer, this`patrolDuration, this`patrolDirection, this`body, rng
    ensures patrolTimer == RoamTimer(old(patrolTimer), old(patrolDuration), dt)
    ensures old(patrolTimer) + dt >= old(patrolDuration) ==>
      patrolDuration == 2000.0 + rng.draws(old(rng.calls)) * 3000.0 &&
      patrolDirection == rng.draws(old(rng.calls) + 1) * PI * 2.0 && rng.calls == old(rng.calls) + 2
    ensures old(patrolTimer) + dt < old(patrolDuration) ==>
      patrolDuration == old(patrolDuration) && patrolDirection == old(patrolDirection) && rng.calls == old(rng.calls)
    ensures body == EnemyPose(old(body), Behavior.Patrol, None, speed, patrolDirection, math)
  {
    patrolTimer := patrolTimer + dt;
    if patrolTimer >= patrolDuration {
      patrolTimer := 0.0;
      var r1: real := rng.Next();
      patrolDuration := 2000.0 + r1 * 3000.0;
      var r2: real := rng.Next();
      patrolDirection := r2 * PI * 2.0;
    }
    var vx := math.cos(patrolDirection) * speed * 0.5;
    var vy := math.sin(patrolDirection) * speed * 0.5;
    body := body.(vx := vx, vy := vy, facingRight := vx > 0.0);
    PatrolPose(old(body), speed, patrolDirection, math);
  }

  /** shoot(game) (js/Enemy.js:207-226): without a target nothing happens;
      with one, an enemy bullet leaves the centre towards it, with a
      five-frame muzzle flash at the same spot. */
  method Shoot(game: Game, math: MathLib, rng: Random)
    modifies game`bullets, game`particles, rng
    ensures rng.calls == old(rng.calls)
    ensures target.None? ==> game.bullets == old(game.bullets) && game.particles == old(game.particles)
    ensures target.Some? ==>
      |game.bullets| == |old(game.bullets)| + 1 && game.bullets[..|old(game.bullets)|] == old(game.bullets) &&
      var b := game.bullets[|old(game.bullets)|];
      var angle := body.AngleTo(target.value.Body(), math);
      fresh(b) && b.alive && b.team == EnemyTeam && b.angle == angle &&
      b.x == body.x + body.width / 2.0 && b.y == body.y + body.height / 2.0 &&
      |game.particles| == |old(game.particles)| + 1 && game.particles[..|old(game.particles)|] == old(game.particles) &&
      fresh(game.particles[|old(game.particles)|]) && game.particles[|old(game.particles)|].kind == Muzzle
  {
    if target.None? {
      return;
    }
    var bulletX := body.x + body.width / 2.0;
    var bulletY := body.y + body.height / 2.0;
    var angle := body.AngleTo(target.value.Body(), math);
    var bullet := new Bullet(bulletX, bulletY, angle, EnemyTeam, assets, math);
    game.bullets := game.bullets + [bullet];
    var muzzleFlash := new Particle(bulletX, bulletY, Muzzle, assets, rng, 5);
    game.particles := game.particles + [muzzleFlash];
  }

  /** updateAnimation() (js/Enemy.js:228-248). */
  method UpdateAnimation()
    modifies this`body
    ensures !old(body.alive) ==> body == old(body)
    ensures old(body.alive) ==>
      body == old(body).(animationManager := old(body.animationManager).Play(EnemyAnimationName(state, body.vx, body.vy)))
  {
    if !body.alive {
      return;
    }
    match state {
      case Attack => body := body.(animationManager := body.animationManager.Play("shoot"));
      case Chase => body := body.(animationManager := body.animationManager.Play("run"));
      case Patrol =>
        if Abs(body.vx) > 10.0 || Abs(body.vy) > 10.0 {
          body := body.(animationManager := body.animationManager.Play("run"));
        } else {
          body := body.(animationManager := body.animationManager.Play("idle"));
        }
      case Wander => body := body.(animationManager := body.animationManager.Play("idle"));
    }
  }

  /** Entity.update(deltaTime, game) as it runs for an enemy
      (js/Entity.js:17-26), whose die() is its own. */
  method EntityUpdate(dt: real)
    modifies this`body
    ensures body == HostileSettle(old(body), dt)
  {
    body := body.Move(dt);
    if body.health <= 0 && body.alive {
      Die();
    }
  }

  /** takeDamage(amount) (js/Enemy.js:250-260): the base damage rule with
      the enemy's own die(); a survivor restarts its hurt animation. */
  method TakeDamage(amount: int)
    modifies this`body
    ensures body.health == old(body).TakeDamage(amount).health
    ensures body.alive == old(body).TakeDamage(amount).alive
    ensures old(body.alive) && !body.alive ==> body.vx == 0.0 && body.vy == 0.0
    ensures old(body.Sound()) ==> body.Sound()
    ensures body == if !old(body.alive) then old(body) else
      var hit := old(body).TakeDamage(amount);
      if hit.alive then hit.(animationManager := hit.animationManager.Play("hurt", true))
      else hit.(vx := 0.0, vy := 0.0)
  {
    if !body.alive {
      return;
    }
    body := body.ReduceHealth(amount);
    if body.health <= 0 {
      Die();
    }
    if body.alive {
      body := body.(animationManager := body.animationManager.Play("hurt", true));
    }
  }

  /** die() (js/Enemy.js:262-272), without its one-second timer (see
      DeathTimerFired): the base die(), then the enemy stops. */
  method Die()
    modifies this`body
    ensures body == old(body).Die().(vx := 0.0, vy := 0.0)
  {
    PlayIdempotent(body.animationManager, "death");
    body := body.Die();
    body := body.(vx := 0.0, vy := 0.0);
    body := body.(animationManager := body.animationManager.Play("death"));
  }

  /** The 300 ms timer takeDamage sets (js/Enemy.js:254-258), fired. */
  method HurtTimerFired()
    modifies this`body
    ensures !old(body.alive) ==> body == old(body)
    ensures old(body.alive) ==>
      body == old(body).(animationManager := old(body.animationManager).Play(EnemyAnimationName(state, body.vx, body.vy)))
  {
    if body.alive {
      UpdateAnimation();
    }
  }

  /** The one-second timer die() sets (js/Enemy.js:269-271), fired: the
      animation manager reports finished from now on. */
  method DeathTimerFired()
    modifies this`body
    ensures body == old(body).(animationManager := old(body.animationManager).ForceFinish())
    ensures body.animationManager.IsFinished()
  {
    body := body.(animationManager := body.animationManager.ForceFinish());
  }
}

// Zombies (js/Zombie.js): each update a zombie looks for the nearest living
// player or enemy within its detection range, bites it from close by, walks
// at it from farther away, and wanders in random directions when nothing is
// in sight. Being hit knocks it back, away from its target.

/** The animation table of a zombie sprite (js/Zombie.js:29-67): frames
    numbered from 0, all at 8 fps; only "death" and "hurt" play once. */
function ZombieTable(): (t: seq<AnimSpec>)
  ensures forall s <- t :: s.frameRate == 8.0
  ensures forall s <- t :: s.loop <==> s.key != "death" && s.key != "hurt"
{
  [AnimSpec("idle", "Idle", 0, 1, 8.0, true),
   AnimSpec("walk", "Walk", 0, 3, 8.0, true),
   AnimSpec("run", "Walk", 0, 3, 8.0, true),
   AnimSpec("attack", "Attack", 0, 1, 8.0, true),
   AnimSpec("death", "Dead", 0, 1, 8.0, false),
   AnimSpec("hurt", "Idle", 0, 1, 8.0, false)]
}

/** The animation state updateAnimationState derives (js/Zombie.js:172-190):
    attacking, walking while chasing or wandering faster than 10 px/s on
    either axis, idle otherwise. */
function ZombieAnimationName(state: Behavior, vx: real, vy: real): (name: string)
  ensures name == "attack" <==> state == Behavior.Attack
  ensures name == "walk" <==> state == Chase || (state == Behavior.Wander && (Abs(vx) > 10.0 || Abs(vy) > 10.0))
  ensures name == "idle" <==> state == Patrol || (state == Behavior.Wander && Abs(vx) <= 10.0 && Abs(vy) <= 10.0)
{
  match state
  case Attack => "attack"
  case Chase => "walk"
  case Wander => if Abs(vx) > 10.0 || Abs(vy) > 10.0 then "walk" else "idle"
  case Patrol => "idle"
}

/** The remembered animation state and the manager after
    updateAnimationState picks `name` (js/Zombie.js:192-195): the manager is
    only asked to play a state that differs from the remembered one. */
function SwitchAnimation(currentState: string, m: AnimationManager, name: string): (r: (string, AnimationManager))
  ensures r.0 == name
  ensures name == currentState ==> r.1 == m
  ensures name != currentState ==> r.1 == m.Play(name)
{
  if name != currentState then (name, m.Play(name)) else (currentState, m)
}

/** Deriving the same state twice plays it at most once: a second switch to
    the same name changes nothing. */
lemma SwitchAnimationIdempotent(currentState: string, m: AnimationManager, name: string)
  ensures var r := SwitchAnimation(currentState, m, name);
    SwitchAnimation(r.0, r.1, name) == r
{
}

/** The velocity and facing updateBehavior gives a living zombie in `state`
    (js/Zombie.js:115-161): it stands still, keeping its facing, while it
    bites, shambles at full speed along the angle to a target it chases, and
    wanders along `direction` at 0.3 of its speed, facing the way it
    moves. */
function ZombiePose(b: Entity, state: Behavior, seen: Option<Entity>, speed: real, direction: real, math: MathLib): Entity
  requires state != Patrol
  requires state == Chase ==> seen.Some?
{
  match state
  case Attack => b.(vx := 0.0, vy := 0.0)
  case Chase =>
    var angle := b.AngleTo(seen.value, math);
    b.(vx := math.cos(angle) * speed, vy := math.sin(angle) * speed, facingRight := math.cos(angle) * speed > 0.0)
  case Wander =>
    b.(vx := math.cos(direction) * speed * 0.3, vy := math.sin(direction) * speed * 0.3,
       facingRight := math.cos(direction) * speed * 0.3 > 0.0)
}

/** ZombiePose for a wander, written out: the same fields Wander sets. */
lemma WanderPose(b: Entity, speed: real, direction: real, math: MathLib)
  ensures ZombiePose(b, Behavior.Wander, None, speed, direction, math) ==
    b.(vx := math.cos(direction) * speed * 0.3, vy := math.sin(direction) * speed * 0.3,
       facingRight := math.cos(direction) * speed * 0.3 > 0.0)
{
}

/** The tail of a living zombie's update (js/Zombie.js:80-85) on body `b`
    with remembered animation state `current`: switch to the animation for
    `state`, run the Entity update with the zombie's own die() (which
    remembers "death"), and clamp into the world. The result is the new
    body and the new remembered state. */
function ZombieSettled(b: Entity, current: string, state: Behavior, dt: real, worldWidth: real, worldHeight: real): (Entity, string)
{
  var r := SwitchAnimation(current, b.animationManager, ZombieAnimationName(state, b.vx, b.vy));
  (KeepInWorld(HostileSettle(b.(animationManager := r.1), dt), worldWidth, worldHeight),
   if b.alive && b.health <= 0 then "death" else r.0)
}

class Zombie {
  var body: Entity
  const zombieType: string
  const assets: Assets
  var speed: real
  const detectionRange: real := 350.0
  const attackRange: real := 40.0
  const attackDamage: int := 15
  var attackCooldown: real
  const attackRate: real := 1000.0
  var target: Option<Target>
  /** What the last target search saw: the target and its body then. */
  ghost var sighting: Option<Sighting>
  var state: Behavior
  var wanderDirection: real
  var wanderTimer: real
  var wanderDuration: real
  var currentState: string

  /** What every update and hit keeps: the entity is Sound and of the
      zombie's size, and the wander
      timer is below the current leg's positive duration. */
  predicate Valid()
    reads this
  {
    body.Sound() && body.width == 56.0 && body.height == 56.0 &&
    0.0 < wanderDuration && 0.0 <= wanderTimer < wanderDuration
  }

  /** new Zombie(x, y, type, assetLoader) (js/Zombie.js:2-27). A missing
      type, modelled as the empty string, falls back to "Zombies01". It
      draws three random numbers, in this order: speed, wander direction and
      wander leg duration. */
  constructor (x: real, y: real, zombieType: string, assets: Assets, rng: Random)
    modifies rng
    ensures this.zombieType == if zombieType == "" then "Zombies01" else zombieType
    ensures body.x == x && body.y == y && body.width == 56.0 && body.height == 56.0
    ensures body.vx == 0.0 && body.vy == 0.0 && body.facingRight && body.alive && body.team == ZombieTeam
    ensures body.health == 60 && body.maxHealth == 60
    ensures body.animationManager ==
      AnimationManager(Registrations(assets, this.zombieType, ZombieTable()), None, "", false).Play("idle")
    ensures this.assets == assets
    ensures speed == 40.0 + rng.draws(old(rng.calls)) * 30.0
    ensures wanderDirection == rng.draws(old(rng.calls) + 1) * PI * 2.0
    ensures wanderDuration == 3000.0 + rng.draws(old(rng.calls) + 2) * 2000.0
    ensures rng.calls == old(rng.calls) + 3
    ensures attackCooldown == 0.0 && target.None? && sighting.None? && state == Behavior.Wander && wanderTimer == 0.0
    ensures currentState == "idle"
    ensures Valid()
  {
    var kind := if zombieType == "" then "Zombies01" else zombieType;
    var r1: real := rng.Next();
    var r2: real := rng.Next();
    var r3: real := rng.Next();
    var m := SetupAnimations(assets, kind, ZombieTable());
    body := NewEntity(x, y, 56.0, 56.0).(team := ZombieTeam, health := 60, maxHealth := 60,
                                          animationManager := m.Play("idle"));
    this.zombieType := kind;
    this.assets := assets;
    speed := 40.0 + r1 * 30.0;
    attackCooldown := 0.0;
    target := None;
    sighting := None;
    state := Behavior.Wander;
    wanderDirection := r2 * PI * 2.0;
    wanderTimer := 0.0;
    wanderDuration := 3000.0 + r3 * 2000.0;
    currentState := "idle";
  }

  /** update(deltaTime, game) (js/Zombie.js:69-86). A dead zombie drifts and
      animates, and leaves the roster once its animation reports finished. A
      living one picks its target, acts, animates, moves and is held inside
      the world. */
  method Update(dt: real, game: Game, math: MathLib, rng: Random)
    modifies this, game`particles, game`zombies, rng, game.player, game.enemies
    ensures forall z <- game.zombies :: z in old(game.zombies)
    ensures forall p <- game.particles :: p in old(game.particles) || fresh(p)
    ensures old(Valid()) && dt >= 0.0 ==> Valid()
    ensures !old(body.alive) ==>
      body == old(body).Move(dt) && unchanged(game.PlayerSlot()) && unchanged(game.enemies) &&
      game.zombies == if body.animationManager.IsFinished() then Without(old(game.zombies), this) else old(game.zombies)
    ensures old(body.alive) ==>
      game.zombies == old(game.zombies) && game.particles == old(game.particles) &&
      body.health == old(body.health) && (body.alive <==> old(body.health) > 0)
  {
    if !body.alive {
      Decay(dt, game, rng);
    } else {
      FindTarget(game);
      var _ := Act(dt, game, math, rng);
    }
  }

  /** The branch of update for a dead zombie (js/Zombie.js:70-76). */
  method Decay(dt: real, game: Game, rng: Random)
    requires !body.alive
    modifies this`body, this`currentState, game`particles, game`zombies, rng
    ensures forall z <- game.zombies :: z in old(game.zombies)
    ensures forall p <- game.particles :: p in old(game.particles) || fresh(p)
    ensures body == old(body).Move(dt) && currentState == old(currentState)
    ensures game.zombies == if body.animationManager.IsFinished() then Without(old(game.zombies), this) else old(game.zombies)
  {
    EntityUpdate(dt);
    if body.animationManager.IsFinished() {
      game.RemoveZombie(this, rng);
    }
  }

  /** What a living zombie does once it has looked for a target
      (js/Zombie.js:79-85): act on it, animate, move and stay inside the
      world. */
  method Act(dt: real, game: Game, math: MathLib, rng: Random) returns (ghost posed: Entity)
    requires body.alive
    requires target == Sighted(sighting)
    requires target.Some? ==> target.value.Ref() != this
    requires sighting.Some? ==> !sighting.value.target.ZombieTarget? && sighting.value.target.Body() == sighting.value.body
    requires sighting.Some? ==> sighting.value.target.From(game.player, game.enemies, game.zombies)
    modifies this`body, this`state, this`attackCooldown, this`wanderTimer, this`wanderDuration,
      this`wanderDirection, this`currentState, rng, if target.Some? then {target.value.Ref()} else {}
    ensures body.health == old(body.health) && (body.alive <==> old(body.health) > 0)
    ensures old(Valid()) && dt >= 0.0 ==> Valid()
    // it bites, chases or wanders as that target dictates; a bite always
    // lands, and nobody else is touched
    ensures var b := Engage(SeenBody(sighting), old(body), attackRange, Behavior.Wander);
      var s := StrikeStep(b == Behavior.Attack, old(attackCooldown), dt, attackRate);
      state == b && attackCooldown == s.cooldown &&
      posed == ZombiePose(old(body), b, SeenBody(sighting), speed, wanderDirection, math) &&
      (body, currentState) == ZombieSettled(posed, old(currentState), b, dt, game.worldWidth, game.worldHeight) &&
      (b == Behavior.Wander ==> wanderTimer == RoamTimer(old(wanderTimer), old(wanderDuration), dt)) &&
      (b != Behavior.Wander ==> wanderTimer == old(wanderTimer)) &&
      // a leg that runs out starts a new one from the next two draws
      (b == Behavior.Wander && old(wanderTimer) + dt >= old(wanderDuration) ==>
        wanderDuration == 3000.0 + rng.draws(old(rng.calls)) * 2000.0 &&
        wanderDirection == rng.draws(old(rng.calls) + 1) * PI * 2.0) &&
      (b != Behavior.Wander || old(wanderTimer) + dt < old(wanderDuration) ==>
        wanderDuration == old(wanderDuration) && wanderDirection == old(wanderDirection)) &&
      (b == Behavior.Attack ==> body.vx == 0.0 && body.vy == 0.0) &&
      (s.fired ==>
        var bitten := sighting.value.body.TakeDamage(attackDamage);
        target.value.Body().health == bitten.health && target.value.Body().alive == bitten.alive) &&
      (!s.fired && target.Some? ==> unchanged(target.value.Ref()))
    // and it stays inside the world
    ensures old(Valid()) ==>
      0.0 <= body.x <= game.worldWidth - body.width && 0.0 <= body.y <= game.worldHeight - body.height
  {
    UpdateBehavior(dt, math, rng);
    posed := body;
    Settle(dt, game);
  }

  /** The tail of a living zombie's update (js/Zombie.js:80-85): derive the
      animation from the new behaviour, run the Entity update, and clamp the
      zombie into the world. */
  method Settle(dt: real, game: Game)
    requires body.alive
    modifies this`body, this`currentState
    ensures (body, currentState) == ZombieSettled(old(body), old(currentState), state, dt, game.worldWidth, game.worldHeight)
  {
    UpdateAnimationState();
    EntityUpdate(dt);
    body := KeepInWorld(body, game.worldWidth, game.worldHeight);
  }

  /** findTarget(game) (js/Zombie.js:88-113): the nearest living player or
      enemy strictly inside the detection range, the first one listed on a
      tie, or none. */
  method FindTarget(game: Game)
    modifies this`target, this`sighting
    ensures sighting == NearestOf(body, old(Opponents(ZombieTeam, game.player, game.enemies, game.zombies)), detectionRange)
    ensures target == Sighted(sighting)
    ensures target.Some? ==> target.value.Ref() != this
    ensures sighting.Some? ==>
      var t := sighting.value.target;
      t.From(game.player, game.enemies, game.zombies) && !t.ZombieTarget? && t.Body() == sighting.value.body &&
      sighting.value.body.alive
  {
    var c := Opponents(ZombieTeam, game.player, game.enemies, game.zombies);
    OpponentsSound(ZombieTeam, game.player, game.enemies, game.zombies);
    var pick := Nearest(body, c, detectionRange);
    sighting := pick;
    target := if pick.Some? then Some(pick.value.target) else None;
  }


  /** updateBehavior(deltaTime, game) (js/Zombie.js:115-146): bite a living
      target inside the attack range, chase one outside it, wander without
      one; then the attack cooldown ticks. */
  method UpdateBehavior(dt: real, math: MathLib, rng: Random)
    requires target == Sighted(sighting)
    requires sighting.Some? ==> !sighting.value.target.ZombieTarget? && sighting.value.target.Body() == sighting.value.body
    modifies this`body, this`state, this`attackCooldown, this`wanderTimer, this`wanderDuration,
      this`wanderDirection, rng, if target.Some? then {target.value.Ref()} else {}
    ensures var b := Engage(SeenBody(sighting), old(body), attackRange, Behavior.Wander);
      var s := StrikeStep(b == Behavior.Attack, old(attackCooldown), dt, attackRate);
      state == b && attackCooldown == s.cooldown &&
      body == ZombiePose(old(body), b, SeenBody(sighting), speed, wanderDirection, math) &&
      (b == Behavior.Wander ==> wanderTimer == RoamTimer(old(wanderTimer), old(wanderDuration), dt)) &&
      (b != Behavior.Wander ==> wanderTimer == old(wanderTimer)) &&
      // a leg that runs out starts a new one from the next two draws
      (b == Behavior.Wander && old(wanderTimer) + dt >= old(wanderDuration) ==>
        wanderDuration == 3000.0 + rng.draws(old(rng.calls)) * 2000.0 &&
        wanderDirection == rng.draws(old(rng.calls) + 1) * PI * 2.0) &&
      (b != Behavior.Wander || old(wanderTimer) + dt < old(wanderDuration) ==>
        wanderDuration == old(wanderDuration) && wanderDirection == old(wanderDirection)) &&
      (s.fired ==>
        var bitten := sighting.value.body.TakeDamage(attackDamage);
        target.value.Body().health == bitten.health && target.value.Body().alive == bitten.alive) &&
      (!s.fired && target.Some? ==> unchanged(target.value.Ref()))
    ensures old(wanderDuration) > 0.0 && old(wanderTimer) < old(wanderDuration) && 0.0 <= old(wanderTimer) && dt >= 0.0 ==>
      0.0 < wanderDuration && 0.0 <= wanderTimer < wanderDuration
  {
    if target.Some? && target.value.Body().alive {
      var tb := target.value.Body();
      if body.DistanceSq(tb) < attackRange * attackRange {
        HoldAndBite(math);
      } else {
        Pursue(tb, math);
      }
    } else {
      state := Behavior.Wander;
      Wander(dt, math, rng);
    }
    if attackCooldown > 0.0 {
      attackCooldown := attackCooldown - dt;
    }
  }

  /** The attack branch of updateBehavior (js/Zombie.js:121-129): stand
      still, and bite when the cooldown is spent. */
  method HoldAndBite(math: MathLib)
    requires target.Some? && !target.value.ZombieTarget?
    requires body.DistanceSq(target.value.Body()) < attackRange * attackRange
    modifies this`body, this`state, this`attackCooldown, target.value.Ref()
    ensures state == Behavior.Attack
    ensures body == ZombiePose(old(body), Behavior.Attack, None, speed, wanderDirection, math)
    ensures attackCooldown == if old(attackCooldown) <= 0.0 then attackRate else old(attackCooldown)
    ensures old(attackCooldown) <= 0.0 ==>
      var bitten := old(target.value.Body()).TakeDamage(attackDamage);
      target.value.Body().health == bitten.health && target.value.Body().alive == bitten.alive
    ensures old(attackCooldown) > 0.0 ==> unchanged(target.value.Ref())
  {
    ghost var victim := target.value.Body();
    state := Behavior.Attack;
    body := body.(vx := 0.0, vy := 0.0);
    assert target.value.Body() == victim && body.DistanceSq(victim) == old(body).DistanceSq(victim);
    if attackCooldown <= 0.0 {
      Attack(math);
      attackCooldown := attackRate;
    }
  }

  /** The chase branch of updateBehavior (js/Zombie.js:130-138): shamble
      straight at the target at full speed. */
  method Pursue(tb: Entity, math: MathLib)
    modifies this`body, this`state
    ensures state == Chase
    ensures body == ZombiePose(old(body), Chase, Some(tb), speed, wanderDirection, math)
  {
    state := Chase;
    var angle := body.AngleTo(tb, math);
    body := body.(vx := math.cos(angle) * speed, vy := math.sin(angle) * speed);
    body := body.(facingRight := body.vx > 0.0);
  }

  /** wander(deltaTime) (js/Zombie.js:148-161): when the leg is over, a new
      leg starts with a fresh random duration and direction; the zombie
      shambles along the leg at 0.3 of its speed. */
  method Wander(dt: real, math: MathLib, rng: Random)
    modifies this`wanderTimer, this`wanderDuration, this`wanderDirection, this`body, rng
    ensures wanderTimer == RoamTimer(old(wanderTimer), old(wanderDuration), dt)
    ensures old(wanderTimer) + dt >= old(wanderDuration) ==>
      wanderDuration == 3000.0 + rng.draws(old(rng.calls)) * 2000.0 &&
      wanderDirection == rng.draws(old(rng.calls) + 1) * PI * 2.0 && rng.calls == old(rng.calls) + 2
    ensures old(wanderTimer) + dt < old(wanderDuration) ==>
      wanderDuration == old(wanderDuration) && wanderDirection == old(wanderDirection) && rng.calls == old(rng.calls)
    ensures body == ZombiePose(old(body), Behavior.Wander, None, speed, wanderDirection, math)
  {
    wanderTimer := wanderTimer + dt;
    if wanderTimer >= wanderDuration {
      wanderTimer := 0.0;
      var r1: real := rng.Next();
      wanderDuration := 3000.0 + r1 * 2000.0;
      var r2: real := rng.Next();
      wanderDirection := r2 * PI * 2.0;
    }
    var vx := math.cos(wanderDirection) * speed * 0.3;
    var vy := math.sin(wanderDirection) * speed * 0.3;
    body := body.(vx := vx, vy := vy, facingRight := vx > 0.0);
    WanderPose(old(body), speed, wanderDirection, math);
  }

  /** attack() (js/Zombie.js:163-167): the target takes the zombie's damage
      only while it is still strictly inside the attack range. */
  method Attack(math: MathLib)
    requires target.Some? ==> !target.value.ZombieTarget?
    modifies if target.Some? then {target.value.Ref()} else {}
    ensures target.Some? && old(body.DistanceSq(target.value.Body())) < attackRange * attackRange ==>
      target.value.Body().health == old(target.value.Body()).TakeDamage(attackDamage).health &&
      target.value.Body().alive == old(target.value.Body()).TakeDamage(attackDamage).alive
    ensures target.Some? && old(body.DistanceSq(target.value.Body())) >= attackRange * attackRange ==>
      unchanged(target.value.Ref())
  {
    if target.Some? && body.DistanceSq(target.value.Body()) < attackRange * attackRange {
      DamageTarget(target.value, attackDamage, math);
    }
  }

  /** updateAnimationState() (js/Zombie.js:169-196). */
  method UpdateAnimationState()
    modifies this`body, this`currentState
    ensures !old(body.alive) ==> body == old(body) && currentState == old(currentState)
    ensures old(body.alive) ==>
      var r := SwitchAnimation(old(currentState), old(body.animationManager), ZombieAnimationName(state, body.vx, body.vy));
      currentState == r.0 && body == old(body).(animationManager := r.1)
  {
    if !body.alive {
      return;
    }
    var newState := "idle";
    match state {
      case Attack => newState := "attack";
      case Chase => newState := "walk";
      case Wander =>
        if Abs(body.vx) > 10.0 || Abs(body.vy) > 10.0 {
          newState := "walk";
        } else {
          newState := "idle";
        }
      case Patrol => newState := "idle";
    }
    if newState != currentState {
      currentState := newState;
      body := body.(animationManager := body.animationManager.Play(newState));
    }
  }

  /** Entity.update(deltaTime, game) as it runs for a zombie
      (js/Entity.js:17-26), whose die() is its own. */
  method EntityUpdate(dt: real)
    modifies this`body, this`currentState
    ensures body == HostileSettle(old(body), dt)
    ensures currentState == if old(body.alive) && old(body.health) <= 0 then "death" else old(currentState)
  {
    body := body.Move(dt);
    if body.health <= 0 && body.alive {
      Die();
    }
  }

  /** takeDamage(amount) (js/Zombie.js:198-207): the base damage rule with
      the zombie's own die(); then, dead or alive, a zombie with a target is
      knocked back 50 px/s directly away from it. */
  method TakeDamage(amount: int, math: MathLib)
    modifies this`body, this`currentState
    ensures body.health == old(body).TakeDamage(amount).health
    ensures body.alive == old(body).TakeDamage(amount).alive
    ensures old(body.Sound()) ==> body.Sound()
    ensures old(target).None? && old(body.alive) && !body.alive ==> body.vx == 0.0 && body.vy == 0.0
    ensures old(target).None? && (!old(body.alive) || body.alive) ==> body.vx == old(body.vx) && body.vy == old(body.vy)
    ensures target.Some? && target.value.Ref() != this ==>
      var angle := old(body).TakeDamage(amount).AngleTo(target.value.Body(), math) + PI;
      body.vx == math.cos(angle) * 50.0 && body.vy == math.sin(angle) * 50.0
    ensures currentState == if old(body.alive) && !body.alive then "death" else old(currentState)
    ensures var d := old(body).TakeDamage(amount);
      var hit := if old(body.alive) && !d.alive then d.(vx := 0.0, vy := 0.0) else d;
      body == if target.None? then hit else
        var angle := hit.AngleTo(old(target.value.Body()), math) + PI;
        hit.(vx := math.cos(angle) * 50.0, vy := math.sin(angle) * 50.0)
  {
    if body.alive {
      body := body.ReduceHealth(amount);
      if body.health <= 0 {
        Die();
      }
    }
    if target.Some? {
      var angle := body.AngleTo(target.value.Body(), math) + PI;
      body := body.(vx := math.cos(angle) * 50.0, vy := math.sin(angle) * 50.0);
    }
  }

  /** die() (js/Zombie.js:209-220), without its one-second timer (see
      DeathTimerFired): the base die(), then the zombie stops and remembers
      the "death" state. */
  method Die()
    modifies this`body, this`currentState
    ensures body == old(body).Die().(vx := 0.0, vy := 0.0)
    ensures currentState == "death"
  {
    PlayIdempotent(body.animationManager, "death");
    body := body.Die();
    body := body.(vx := 0.0, vy := 0.0);
    currentState := "death";
    body := body.(animationManager := body.animationManager.Play("death"));
  }

  /** The one-second timer die() sets (js/Zombie.js:216-219), fired: the
      animation manager reports finished from now on. */
  method DeathTimerFired()
    modifies this`body
    ensures body == old(body).(animationManager := old(body.animationManager).ForceFinish())
    ensures body.animationManager.IsFinished()
  {
    body := body.(animationManager := body.animationManager.ForceFinish());
  }
}

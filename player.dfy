// The player's controller (js/Player.js): keyboard and pointer input drive
// the velocity, a held trigger fires at most once per cooldown, the sprite
// follows a fixed priority of animations, and the score counts kills.

/** The key-state object the input listeners maintain. */
datatype Keys = Keys(left: bool, right: bool, up: bool, down: bool, jump: bool, shoot: bool, crouch: bool)

/** No key held: the state the constructor starts from. */
const Released: Keys := Keys(false, false, false, false, false, false, false)

/** The last pointer position the mousemove listener saw, in screen pixels. */
datatype Pointer = Pointer(x: real, y: real)

/** What handleMovement reads and writes. */
datatype Motion = Motion(vx: real, vy: real, facingRight: bool, isJumping: bool, isGrounded: bool)

/** The steering rules of handleMovement (js/Player.js:221-252). Crouching
    stops horizontal motion and nothing else. Otherwise, on each axis the
    first key of the pair wins (left over right, up over down), a held key
    sets full speed and no key damps the velocity by 0.85; a jump key while
    grounded launches the player upwards and leaves the ground for good. */
function Steer(keys: Keys, m: Motion, speed: real, jumpForce: real): (r: Motion)
  ensures keys.crouch ==> r == m.(vx := 0.0)
  ensures !keys.crouch && keys.left ==> r.vx == -speed && !r.facingRight
  ensures !keys.crouch && !keys.left && keys.right ==> r.vx == speed && r.facingRight
  ensures !keys.crouch && !keys.left && !keys.right ==> r.vx == m.vx * 0.85 && r.facingRight == m.facingRight
  ensures !keys.crouch && !(keys.jump && m.isGrounded) ==>
    r.vy == (if keys.up then -speed else if keys.down then speed else m.vy * 0.85)
  // a jump happens exactly when the key is held, the player is on the
  // ground and not crouching; nothing ever puts the player back on it
  ensures (m.isGrounded && !r.isGrounded) <==> (!keys.crouch && keys.jump && m.isGrounded)
  ensures m.isGrounded && !r.isGrounded ==> r.vy == -jumpForce && r.isJumping
  ensures r.isGrounded ==> m.isGrounded
  ensures m.isJumping ==> r.isJumping
  ensures r.isJumping == m.isJumping || (m.isGrounded && !r.isGrounded)
{
  if keys.crouch then m.(vx := 0.0)
  else
    var vx := if keys.left then -speed else if keys.right then speed else m.vx * 0.85;
    var facing := if keys.left then false else if keys.right then true else m.facingRight;
    var vy := if keys.up then -speed else if keys.down then speed else m.vy * 0.85;
    if keys.jump && m.isGrounded then Motion(vx, -jumpForce, facing, true, false)
    else Motion(vx, vy, facing, m.isJumping, m.isGrounded)
}

/** Steering never pushes the velocity past the player's own speed
    horizontally, or past the jump impulse vertically. */
lemma SteerKeepsSpeedCap(keys: Keys, m: Motion, speed: real, jumpForce: real)
  requires 0.0 <= speed <= jumpForce
  requires Abs(m.vx) <= speed && Abs(m.vy) <= jumpForce
  ensures Abs(Steer(keys, m, speed, jumpForce).vx) <= speed
  ensures Abs(Steer(keys, m, speed, jumpForce).vy) <= jumpForce
{
  var r := Steer(keys, m, speed, jumpForce);
  if !keys.crouch && !keys.left && !keys.right {
    assert Abs(m.vx * 0.85) <= Abs(m.vx);
  }
  if !keys.crouch && !(keys.jump && m.isGrounded) && !keys.up && !keys.down {
    assert Abs(m.vy * 0.85) <= Abs(m.vy);
  }
}

/** How many jumps a run of input snapshots triggers. */
function Jumps(ks: seq<Keys>, m: Motion, speed: real, jumpForce: real): nat
  decreases |ks|
{
  if ks == [] then 0
  else
    var r := Steer(ks[0], m, speed, jumpForce);
    (if m.isGrounded && !r.isGrounded then 1 else 0) + Jumps(ks[1..], r, speed, jumpForce)
}

/** However the keys are pressed, a player jumps at most once, and never
    after leaving the ground. */
lemma {:induction false} AtMostOneJump(ks: seq<Keys>, m: Motion, speed: real, jumpForce: real)
  ensures Jumps(ks, m, speed, jumpForce) <= (if m.isGrounded then 1 else 0)
  decreases |ks|
{
  if ks != [] {
    var r := Steer(ks[0], m, speed, jumpForce);
    AtMostOneJump(ks[1..], r, speed, jumpForce);
  }
}

/** The `if (cooldown > 0) cooldown -= deltaTime` step the player, the
    enemies and the zombies all take: a spent cooldown stays where it is. */
function CooldownTick(cooldown: real, dt: real): (r: real)
  ensures cooldown <= 0.0 ==> r == cooldown
  ensures cooldown > 0.0 && dt >= 0.0 ==> r <= cooldown
{
  if cooldown > 0.0 then cooldown - dt else cooldown
}

/** The outcome of one handleShooting call. */
datatype Trigger = Trigger(fired: bool, cooldown: real, isShooting: bool)

/** handleShooting's decision (js/Player.js:254-266): the cooldown ticks
    first; a held trigger fires when it is spent, rearming it to `rate`. */
function ShootStep(shoot: bool, cooldown: real, isShooting: bool, dt: real, rate: real): (r: Trigger)
  ensures r.fired <==> shoot && CooldownTick(cooldown, dt) <= 0.0
  ensures r.fired ==> r.cooldown == rate
  ensures !r.fired ==> r.cooldown == CooldownTick(cooldown, dt)
  ensures r.isShooting <==> r.fired || (shoot && isShooting)
{
  var c := CooldownTick(cooldown, dt);
  if shoot && c <= 0.0 then Trigger(true, rate, true)
  else if !shoot then Trigger(false, c, false)
  else Trigger(false, c, isShooting)
}

/** The shots a trigger held through a run of frames fires. */
function HeldShots(cooldown: real, dts: seq<real>, rate: real): nat
  decreases |dts|
{
  if dts == [] then 0
  else
    var t := ShootStep(true, cooldown, true, dts[0], rate);
    (if t.fired then 1 else 0) + HeldShots(t.cooldown, dts[1..], rate)
}

/** Shots are spaced by the cooldown: while less time than the remaining
    cooldown passes, a held trigger fires nothing. */
lemma {:induction false} NoShotWhileCooling(cooldown: real, dts: seq<real>, rate: real)
  requires forall i :: 0 <= i < |dts| ==> dts[i] >= 0.0
  requires Sum(dts) < cooldown
  ensures HeldShots(cooldown, dts, rate) == 0
  decreases |dts|
{
  if dts != [] {
    SumNonNegative(dts[1..]);
    var t := ShootStep(true, cooldown, true, dts[0], rate);
    assert !t.fired && t.cooldown == cooldown - dts[0];
    NoShotWhileCooling(t.cooldown, dts[1..], rate);
  }
}

/** A trigger held through frames that each take at least the whole fire
    interval, starting spent, fires on every one of them. */
lemma {:induction false} HeldTriggerFiresEachSlowFrame(cooldown: real, dts: seq<real>, rate: real)
  requires |dts| == 0 || cooldown <= 0.0 || cooldown <= dts[0]
  requires 0.0 < rate
  requires forall i :: 0 <= i < |dts| ==> dts[i] >= rate
  ensures HeldShots(cooldown, dts, rate) == |dts|
  decreases |dts|
{
  if dts != [] {
    var t := ShootStep(true, cooldown, true, dts[0], rate);
    assert t.fired;
    HeldTriggerFiresEachSlowFrame(t.cooldown, dts[1..], rate);
  }
}

/** updateAnimation's choice (js/Player.js:301-319): crouch, then shoot,
    then jump, then run above 150 px/s on either axis, walk above 50, and
    idle otherwise. */
function PlayerAnimationName(crouch: bool, shooting: bool, jumping: bool, vx: real, vy: real): (name: string)
  ensures name == "crouch" <==> crouch
  ensures name == "shoot" <==> !crouch && shooting
  ensures name == "jump" <==> !crouch && !shooting && jumping
  ensures name == "run" <==> !crouch && !shooting && !jumping && (Abs(vx) > 150.0 || Abs(vy) > 150.0)
  ensures name == "walk" <==>
    !crouch && !shooting && !jumping && Abs(vx) <= 150.0 && Abs(vy) <= 150.0 && (Abs(vx) > 50.0 || Abs(vy) > 50.0)
  ensures name == "idle" <==> !crouch && !shooting && !jumping && Abs(vx) <= 50.0 && Abs(vy) <= 50.0
{
  if crouch then "crouch"
  else if shooting then "shoot"
  else if jumping then "jump"
  else if Abs(vx) > 50.0 || Abs(vy) > 50.0 then
    if Abs(vx) > 150.0 || Abs(vy) > 150.0 then "run" else "walk"
  else "idle"
}

/** The direction of a shot (js/Player.js:269-280): towards the pointer in
    world coordinates when there is one, else straight along the facing. */
function AimAngle(originX: real, originY: real, facingRight: bool, pointer: Option<Pointer>,
                  camera: Camera, math: MathLib): real
{
  match pointer
  case None => if facingRight then 0.0 else PI
  case Some(p) => math.atan2(p.y + camera.y - originY, p.x + camera.x - originX)
}

/** The animation table of a player sprite (js/Player.js:33-127): sprites
    whose name starts with "Soldier" use numbered frames from 0 and 12 fps
    for running, 8 otherwise; the hero sprites number from 1 at 10 fps, and
    their idle and hurt animations have a single frame. Only "die" and
    "hurt" play once. */
function PlayerTable(heroType: string): (t: seq<AnimSpec>)
  ensures forall s <- t :: s.frameRate != 0.0
  ensures forall s <- t :: s.loop <==> s.key != "die" && s.key != "hurt"
{
  if StartsWith(heroType, "Soldier") then
    [AnimSpec("idle", "Idle", 0, 2, 8.0, true),
     AnimSpec("run", "Run", 0, 2, 12.0, true),
     AnimSpec("walk", "Run", 0, 2, 8.0, true),
     AnimSpec("jump", "Idle", 0, 2, 8.0, true),
     AnimSpec("shoot", "Shoot", 0, 1, 8.0, true),
     AnimSpec("die", "Dead", 0, 1, 8.0, false),
     AnimSpec("hurt", "Idle", 0, 1, 8.0, false),
     AnimSpec("crouch", "Idle", 0, 1, 8.0, true)]
  else
    [AnimSpec("idle", "idle", 1, 1, 10.0, true),
     AnimSpec("run", "run", 1, 12, 10.0, true),
     AnimSpec("walk", "walk", 1, 8, 10.0, true),
     AnimSpec("jump", "jump", 1, 3, 10.0, true),
     AnimSpec("shoot", "shoot", 1, 5, 10.0, true),
     AnimSpec("die", "die", 1, 5, 10.0, false),
     AnimSpec("hurt", "hurt", 1, 1, 10.0, false),
     AnimSpec("crouch", "crouch", 1, 4, 10.0, true)]
}

/** The body a living player has once it has steered and turned
    (js/Player.js:205-210): the steered motion `m`, and with a known pointer
    facing right exactly when the pointer, in world coordinates, is not left
    of its centre. */
function TurnedBody(b: Entity, m: Motion, pointer: Option<Pointer>, camera: Camera): Entity
{
  var steered := b.(vx := m.vx, vy := m.vy, facingRight := m.facingRight);
  if pointer.Some? then steered.(facingRight := pointer.value.x + camera.x >= steered.x + steered.width / 2.0)
  else steered
}

/** The tail of a living player's update (js/Player.js:213-218) on body
    `b`: play `name`, run the Entity update, clamp into the world. */
function SettledBody(b: Entity, name: string, dt: real, worldWidth: real, worldHeight: real): Entity
{
  KeepInWorld(b.(animationManager := b.animationManager.Play(name)).Update(dt), worldWidth, worldHeight)
}

/** The body a living player ends its update with (js/Player.js:204-218):
    turned as TurnedBody says, then settled as SettledBody says. */
function LiveBody(b: Entity, m: Motion, pointer: Option<Pointer>, camera: Camera, name: string,
                  dt: real, worldWidth: real, worldHeight: real): Entity
{
  SettledBody(TurnedBody(b, m, pointer, camera), name, dt, worldWidth, worldHeight)
}

class Player {
  var body: Entity
  const heroType: string
  const assets: Assets
  const speed: real := 200.0
  const jumpForce: real := 500.0
  var isJumping: bool
  var isGrounded: bool
  var isShooting: bool
  var shootCooldown: real
  const shootRate: real := 250.0
  var keys: Keys
  var pointer: Option<Pointer>
  var score: int
  var kills: int

  /** What every update, hit and heal keeps: the entity is Sound and of the
      player's size, the velocity is within the steering caps, and a player
      is off the ground exactly when it has jumped. */
  predicate Valid()
    reads this
  {
    body.Sound() && body.width == 64.0 && body.height == 64.0 &&
    Abs(body.vx) <= speed && Abs(body.vy) <= jumpForce && isJumping == !isGrounded
  }

  /** new Player(x, y, heroType, assetLoader) (js/Player.js:2-31), without
      the input listeners: the key and pointer state arrive through
      SetInput. */
  constructor (x: real, y: real, heroType: string, assets: Assets)
    ensures body.x == x && body.y == y && body.width == 64.0 && body.height == 64.0
    ensures body.vx == 0.0 && body.vy == 0.0 && body.facingRight
    ensures body.health == 100 && body.maxHealth == 100 && body.alive && body.team == PlayerTeam
    ensures body.animationManager ==
      AnimationManager(Registrations(assets, heroType, PlayerTable(heroType)), None, "", false).Play("idle")
    ensures this.heroType == heroType && this.assets == assets
    ensures !isJumping && isGrounded && !isShooting && shootCooldown == 0.0
    ensures keys == Released && pointer.None? && score == 0 && kills == 0
    ensures Valid()
  {
    var m := SetupAnimations(assets, heroType, PlayerTable(heroType));
    body := NewEntity(x, y, 64.0, 64.0).(team := PlayerTeam, animationManager := m.Play("idle"));
    this.heroType := heroType;
    this.assets := assets;
    isJumping, isGrounded, isShooting := false, true, false;
    shootCooldown := 0.0;
    keys := Released;
    pointer := None;
    score, kills := 0, 0;
  }

  /** The input snapshot the keydown/keyup/mouse listeners would leave
      behind (js/Player.js:129-196). */
  method SetInput(keys: Keys, pointer: Option<Pointer>)
    modifies this`keys, this`pointer
    ensures this.keys == keys && this.pointer == pointer
  {
    this.keys := keys;
    this.pointer := pointer;
  }

  function MotionState(): Motion
    reads this
  {
    Motion(body.vx, body.vy, body.facingRight, isJumping, isGrounded)
  }

  /** update(deltaTime, game) (js/Player.js:198-219). A dead player only
      drifts and animates. A living one steers, turns towards the pointer,
      handles the trigger, picks its animation, moves, and is then held
      inside the world. */
  method Update(dt: real, game: Game, math: MathLib, rng: Random)
    modifies this, game`bullets, game`particles, rng
    ensures rng.calls == old(rng.calls)
    ensures keys == old(keys) && pointer == old(pointer) && score == old(score) && kills == old(kills)
    ensures old(Valid()) ==> Valid()
    // it is dead afterwards iff it was dead already or had no health left
    ensures body.alive <==> old(body.alive) && old(body.health) > 0
    ensures !old(body.alive) ==>
      body == old(body).Update(dt) && MotionState() == old(MotionState()).(vx := body.vx) &&
      isShooting == old(isShooting) && shootCooldown == old(shootCooldown) &&
      game.bullets == old(game.bullets) && game.particles == old(game.particles)
    ensures old(body.alive) ==> Lived(dt, game)
    ensures forall b <- game.bullets :: b in old(game.bullets) || fresh(b)
    ensures forall p <- game.particles :: p in old(game.particles) || fresh(p)
  {
    if !body.alive {
      body := body.Update(dt);
      return;
    }
    Live(dt, game, math, rng);
  }

  /** The new state of a living player after one update
      (js/Player.js:204-218): the motion is Steer of the old one, the
      trigger follows ShootStep, the body is LiveBody of the old body, and
      each shot adds one player bullet and one muzzle flash and nothing
      else. */
  twostate predicate Lived(dt: real, game: Game)
    reads this, game, game.bullets
  {
    var m := Steer(keys, old(MotionState()), speed, jumpForce);
    var t := ShootStep(keys.shoot, old(shootCooldown), old(isShooting), dt, shootRate);
    var name := PlayerAnimationName(keys.crouch, t.isShooting, m.isJumping, m.vx, m.vy);
    body == LiveBody(old(body), m, pointer, game.camera, name, dt, game.worldWidth, game.worldHeight) &&
    isJumping == m.isJumping && isGrounded == m.isGrounded &&
    shootCooldown == t.cooldown && isShooting == t.isShooting &&
    (t.fired ==>
      |game.bullets| == |old(game.bullets)| + 1 && game.bullets[..|old(game.bullets)|] == old(game.bullets) &&
      game.bullets[|old(game.bullets)|].team == PlayerTeam && game.bullets[|old(game.bullets)|].alive &&
      |game.particles| == |old(game.particles)| + 1 && game.particles[..|old(game.particles)|] == old(game.particles) &&
      game.particles[|old(game.particles)|].kind == Muzzle) &&
    (!t.fired ==> game.bullets == old(game.bullets) && game.particles == old(game.particles))
  }

  /** The branch of update for a living player (js/Player.js:204-218). */
  method Live(dt: real, game: Game, math: MathLib, rng: Random)
    requires body.alive
    modifies this`body, this`isJumping, this`isGrounded, this`shootCooldown, this`isShooting,
      game`bullets, game`particles, rng
    ensures rng.calls == old(rng.calls)
    ensures old(Valid()) ==> Valid()
    ensures Lived(dt, game)
    ensures body.health == old(body.health) && (body.alive <==> old(body.health) > 0)
    // the player stays inside the world
    ensures old(Valid()) ==>
      0.0 <= body.x <= game.worldWidth - body.width && 0.0 <= body.y <= game.worldHeight - body.height
    ensures forall b <- game.bullets :: b in old(game.bullets) || fresh(b)
    ensures forall p <- game.particles :: p in old(game.particles) || fresh(p)
  {
    Turn(game);
    Fire(dt, game, math, rng);
  }

  /** The rest of a living player's update once it has turned
      (js/Player.js:211-218): the trigger, then the animation, the Entity
      update and the clamp. */
  method Fire(dt: real, game: Game, math: MathLib, rng: Random)
    requires body.alive
    modifies this`body, this`shootCooldown, this`isShooting, game`bullets, game`particles, rng
    ensures rng.calls == old(rng.calls)
    ensures var t := ShootStep(keys.shoot, old(shootCooldown), old(isShooting), dt, shootRate);
      body == SettledBody(old(body), PlayerAnimationName(keys.crouch, t.isShooting, isJumping, old(body.vx), old(body.vy)),
                          dt, game.worldWidth, game.worldHeight) &&
      shootCooldown == t.cooldown && isShooting == t.isShooting &&
      (t.fired ==>
        |game.bullets| == |old(game.bullets)| + 1 && game.bullets[..|old(game.bullets)|] == old(game.bullets) &&
        game.bullets[|old(game.bullets)|].team == PlayerTeam && game.bullets[|old(game.bullets)|].alive &&
        |game.particles| == |old(game.particles)| + 1 && game.particles[..|old(game.particles)|] == old(game.particles) &&
        game.particles[|old(game.particles)|].kind == Muzzle) &&
      (!t.fired ==> game.bullets == old(game.bullets) && game.particles == old(game.particles))
    ensures old(Valid()) ==> (Valid() &&
      0.0 <= body.x <= game.worldWidth - body.width && 0.0 <= body.y <= game.worldHeight - body.height)
    ensures forall b <- game.bullets :: b in old(game.bullets) || fresh(b)
    ensures forall p <- game.particles :: p in old(game.particles) || fresh(p)
  {
    HandleShooting(dt, game, math, rng);
    Settle(dt, game);
  }

  /** The steering and facing of a living player's update
      (js/Player.js:205-210). */
  method Turn(game: Game)
    modifies this`body, this`isJumping, this`isGrounded
    ensures var m := Steer(keys, old(MotionState()), speed, jumpForce);
      body == TurnedBody(old(body), m, pointer, game.camera) && body.vx == m.vx && body.vy == m.vy &&
      isJumping == m.isJumping && isGrounded == m.isGrounded
    ensures old(Valid()) ==> Valid()
  {
    ghost var wasValid := Valid();
    if wasValid {
      SteerKeepsSpeedCap(keys, MotionState(), speed, jumpForce);
    }
    HandleMovement();
    FacePointer(game);
  }

  /** The facing rule of update (js/Player.js:206-210): with a known
      pointer, the player faces right exactly when the pointer, in world
      coordinates, is not left of its centre. */
  method FacePointer(game: Game)
    modifies this`body
    ensures pointer.None? ==> body == old(body)
    ensures pointer.Some? ==>
      body == old(body).(facingRight := pointer.value.x + game.camera.x >= old(body.x) + old(body.width) / 2.0)
  {
    if pointer.Some? {
      var worldMouseX := pointer.value.x + game.camera.x;
      body := body.(facingRight := worldMouseX >= body.x + body.width / 2.0);
    }
  }

  /** The tail of a living player's update (js/Player.js:213-218): pick the
      animation, run the Entity update and clamp the player into the
      world. */
  method Settle(dt: real, game: Game)
    requires body.alive
    modifies this`body
    ensures body == SettledBody(old(body), PlayerAnimationName(keys.crouch, isShooting, isJumping, old(body.vx), old(body.vy)),
                                dt, game.worldWidth, game.worldHeight)
    ensures old(Valid()) ==> (Valid() &&
      0.0 <= body.x <= game.worldWidth - body.width && 0.0 <= body.y <= game.worldHeight - body.height)
  {
    UpdateAnimation();
    body := body.Update(dt);
    body := KeepInWorld(body, game.worldWidth, game.worldHeight);
  }

  /** handleMovement(deltaTime) (js/Player.js:221-252). */
  method HandleMovement()
    modifies this`body, this`isJumping, this`isGrounded
    ensures MotionState() == Steer(keys, old(MotionState()), speed, jumpForce)
    ensures body == old(body).(vx := body.vx, vy := body.vy, facingRight := body.facingRight)
  {
    if keys.crouch {
      body := body.(vx := 0.0);
      return;
    }
    if keys.left {
      body := body.(vx := -speed, facingRight := false);
    } else if keys.right {
      body := body.(vx := speed, facingRight := true);
    } else {
      body := body.(vx := body.vx * 0.85);
    }
    if keys.up {
      body := body.(vy := -speed);
    } else if keys.down {
      body := body.(vy := speed);
    } else {
      body := body.(vy := body.vy * 0.85);
    }
    if keys.jump && isGrounded {
      body := body.(vy := -jumpForce);
      isJumping := true;
      isGrounded := false;
    }
  }

  /** handleShooting(deltaTime, game) (js/Player.js:254-266). */
  method HandleShooting(dt: real, game: Game, math: MathLib, rng: Random)
    modifies this`shootCooldown, this`isShooting, game`bullets, game`particles, rng
    ensures var t := ShootStep(keys.shoot, old(shootCooldown), old(isShooting), dt, shootRate);
      shootCooldown == t.cooldown && isShooting == t.isShooting &&
      (t.fired ==>
        |game.bullets| == |old(game.bullets)| + 1 && game.bullets[..|old(game.bullets)|] == old(game.bullets) &&
        fresh(game.bullets[|old(game.bullets)|]) && game.bullets[|old(game.bullets)|].team == PlayerTeam &&
        game.bullets[|old(game.bullets)|].alive &&
        |game.particles| == |old(game.particles)| + 1 && game.particles[..|old(game.particles)|] == old(game.particles) &&
        fresh(game.particles[|old(game.particles)|]) && game.particles[|old(game.particles)|].kind == Muzzle) &&
      (!t.fired ==> game.bullets == old(game.bullets) && game.particles == old(game.particles))
    ensures rng.calls == old(rng.calls)
    ensures forall b <- game.bullets :: b in old(game.bullets) || fresh(b)
    ensures forall p <- game.particles :: p in old(game.particles) || fresh(p)
  {
    if shootCooldown > 0.0 {
      shootCooldown := shootCooldown - dt;
    }
    if keys.shoot && shootCooldown <= 0.0 {
      Shoot(game, math, rng);
      shootCooldown := shootRate;
      isShooting := true;
    } else if !keys.shoot {
      isShooting := false;
    }
  }

  /** shoot(game) (js/Player.js:268-299): one player bullet leaves the gun
      muzzle, 32 px from the centre along the aim, with a five-frame muzzle
      flash at the same spot. */
  method Shoot(game: Game, math: MathLib, rng: Random)
    modifies game`bullets, game`particles, rng
    ensures |game.bullets| == |old(game.bullets)| + 1 && game.bullets[..|old(game.bullets)|] == old(game.bullets)
    ensures var b := game.bullets[|old(game.bullets)|];
      var ox := body.x + body.width / 2.0;
      var oy := body.y + body.height / 2.0;
      var angle := AimAngle(ox, oy, body.facingRight, pointer, game.camera, math);
      fresh(b) && b.alive && b.team == PlayerTeam && b.angle == angle &&
      b.x == ox + math.cos(angle) * 32.0 && b.y == oy + math.sin(angle) * 32.0
    ensures |game.particles| == |old(game.particles)| + 1 && game.particles[..|old(game.particles)|] == old(game.particles)
    ensures var p := game.particles[|old(game.particles)|];
      fresh(p) && p.kind == Muzzle && p.alive && |p.frames| <= 5
    ensures rng.calls == old(rng.calls)
  {
    var originX := body.x + body.width / 2.0;
    var originY := body.y + body.height / 2.0;
    var angle := AimAngle(originX, originY, body.facingRight, pointer, game.camera, math);
    var bulletX := originX + math.cos(angle) * 32.0;
    var bulletY := originY + math.sin(angle) * 32.0;
    var bullet := new Bullet(bulletX, bulletY, angle, PlayerTeam, assets, math);
    game.bullets := game.bullets + [bullet];
    var muzzleFlash := new Particle(bulletX, bulletY, Muzzle, assets, rng, 5);
    game.particles := game.particles + [muzzleFlash];
  }

  /** updateAnimation() (js/Player.js:301-319). */
  method UpdateAnimation()
    modifies this`body
    ensures !old(body.alive) ==> body == old(body)
    ensures old(body.alive) ==> body == old(body).(animationManager := old(body.animationManager).Play(
      PlayerAnimationName(keys.crouch, isShooting, isJumping, body.vx, body.vy)))
  {
    if !body.alive {
      return;
    }
    var name: string;
    if keys.crouch {
      name := "crouch";
    } else if isShooting {
      name := "shoot";
    } else if isJumping {
      name := "jump";
    } else if Abs(body.vx) > 50.0 || Abs(body.vy) > 50.0 {
      if Abs(body.vx) > 150.0 || Abs(body.vy) > 150.0 {
        name := "run";
      } else {
        name := "walk";
      }
    } else {
      name := "idle";
    }
    body := body.(animationManager := body.animationManager.Play(name));
  }

  /** takeDamage(amount) (js/Player.js:321-331): the base damage rule with
      the base die(), then, if the player survived, the hurt animation
      restarts. */
  method TakeDamage(amount: int)
    modifies this`body
    ensures var hit := old(body).TakeDamage(amount);
      body == if hit.alive then hit.(animationManager := hit.animationManager.Play("hurt", true)) else hit
    ensures old(body.Sound()) ==> body.Sound()
  {
    body := body.TakeDamage(amount);
    if body.alive {
      body := body.(animationManager := body.animationManager.Play("hurt", true));
    }
  }

  /** The 500 ms timer takeDamage sets (js/Player.js:325-329), fired: a
      living player reselects its animation. */
  method HurtTimerFired()
    modifies this`body
    ensures !old(body.alive) ==> body == old(body)
    ensures old(body.alive) ==> body == old(body).(animationManager := old(body.animationManager).Play(
      PlayerAnimationName(keys.crouch, isShooting, isJumping, body.vx, body.vy)))
  {
    if body.alive {
      UpdateAnimation();
    }
  }

  /** addScore(points) (js/Player.js:333-335). */
  method AddScore(points: int)
    modifies this`score
    ensures score == old(score) + points
  {
    score := score + points;
  }

  /** addKill() (js/Player.js:337-340): one more kill, worth 100 points. */
  method AddKill()
    modifies this`kills, this`score
    ensures kills == old(kills) + 1 && score == old(score) + 100
  {
    kills := kills + 1;
    AddScore(100);
  }
}

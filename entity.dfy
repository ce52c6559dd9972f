// The state every combatant shares (js/Entity.js). JavaScript subclasses
// Entity; here Player, Enemy and Zombie each hold an Entity value as their
// `body` and run their own die() where the base class would dispatch to it.

/** The `team` tag: which side an entity or a bullet fights for. */
datatype Team = PlayerTeam | EnemyTeam | ZombieTeam | Neutral

/** getBounds() (js/Entity.js:106-113). */
datatype Rect = Rect(x: real, y: real, width: real, height: real)

/** The strict box-overlap test of collidesWith (js/Entity.js:115-123):
    boxes that only touch along an edge do not collide. */
predicate Overlaps(a: Rect, b: Rect)
{
  a.x < b.x + b.width && a.x + a.width > b.x &&
  a.y < b.y + b.height && a.y + a.height > b.y
}

/** Collision is symmetric. */
lemma OverlapsSymmetric(a: Rect, b: Rect)
  ensures Overlaps(a, b) <==> Overlaps(b, a)
{
}

/** Boxes side by side, sharing only an edge, do not collide. */
lemma EdgeContactIsNoCollision(a: Rect, b: Rect)
  requires a.x + a.width == b.x || a.y + a.height == b.y
  ensures !Overlaps(a, b)
{
}

/** A box of positive size collides with itself. */
lemma OverlapsItself(a: Rect)
  requires a.width > 0.0 && a.height > 0.0
  ensures Overlaps(a, a)
{
}

datatype Entity = Entity(
  x: real,
  y: real,
  width: real,
  height: real,
  vx: real,
  vy: real,
  health: int,
  maxHealth: int,
  alive: bool,
  animationManager: AnimationManager,
  facingRight: bool,
  team: Team)
{
  /** What every live or dead entity keeps: health is never negative and a
      live entity has some left. */
  predicate Sound()
  {
    0 <= health && (alive ==> 0 < health)
  }

  /** The first half of update(deltaTime) (js/Entity.js:17-21): integrate the
      velocity, given in pixels per second, over dt milliseconds and step the
      animation. */
  function Move(dt: real): (r: Entity)
    ensures r.x == x + vx * dt / 1000.0 && r.y == y + vy * dt / 1000.0
    ensures r.animationManager == animationManager.Update(dt)
    ensures r == this.(x := r.x, y := r.y, animationManager := r.animationManager)
  {
    this.(x := x + vx * dt / 1000.0, y := y + vy * dt / 1000.0,
          animationManager := animationManager.Update(dt))
  }

  /** die() (js/Entity.js:101-104): the entity stops being alive and starts
      its "death" animation, when it has one. */
  function Die(): (r: Entity)
    ensures !r.alive
    ensures r.animationManager == animationManager.Play("death")
    ensures r == this.(alive := false, animationManager := r.animationManager)
  {
    this.(alive := false, animationManager := animationManager.Play("death"))
  }

  /** update(deltaTime, game) with the base die() (js/Entity.js:17-26): an
      entity left with no health dies during its update. */
  function Update(dt: real): (r: Entity)
    ensures r.health == health && r.maxHealth == maxHealth
    ensures r.alive <==> alive && health > 0
    ensures alive && health <= 0 ==> r == Move(dt).Die()
    ensures !(alive && health <= 0) ==> r == Move(dt)
    ensures Sound() ==> r.Sound()
  {
    var moved := Move(dt);
    if moved.health <= 0 && moved.alive then moved.Die() else moved
  }

  /** The health arithmetic of takeDamage (js/Entity.js:93-94): health drops
      by the amount and stops at zero. */
  function ReduceHealth(amount: int): (r: Entity)
    ensures r.health == MaxInt(0, health - amount)
    ensures r.health >= 0
    ensures health >= 0 && amount >= 0 ==> r.health <= health
    ensures r == this.(health := r.health)
  {
    this.(health := MaxInt(0, health - amount))
  }

  /** takeDamage(amount) with the base die() (js/Entity.js:90-99): the dead
      ignore damage; the living lose health and die when it reaches zero. */
  function TakeDamage(amount: int): (r: Entity)
    ensures !alive ==> r == this
    ensures alive ==> r.health == MaxInt(0, health - amount)
    ensures alive ==> (r.alive <==> r.health > 0)
    ensures r.alive ==> alive
    ensures alive && !r.alive ==> r == ReduceHealth(amount).Die()
    ensures r.alive ==> r == ReduceHealth(amount)
    ensures Sound() ==> r.Sound()
  {
    if !alive then this
    else
      var hurt := ReduceHealth(amount);
      if hurt.health <= 0 then hurt.Die() else hurt
  }

  /** getBounds() (js/Entity.js:106-113). */
  function Bounds(): Rect
  {
    Rect(x, y, width, height)
  }

  /** collidesWith(other) (js/Entity.js:115-123). */
  predicate CollidesWith(other: Entity)
  {
    Overlaps(Bounds(), other.Bounds())
  }

  /** The square of getDistance(other) (js/Entity.js:125-129). Every caller
      compares a distance with a non-negative radius, which squaring keeps. */
  function DistanceSq(other: Entity): (d: real)
    ensures d >= 0.0
  {
    (x - other.x) * (x - other.x) + (y - other.y) * (y - other.y)
  }

  /** getAngleTo(other) (js/Entity.js:131-133). */
  function AngleTo(other: Entity, math: MathLib): real
  {
    math.atan2(other.y - y, other.x - x)
  }
}

/** Distance does not depend on who measures it. */
lemma DistanceSymmetric(a: Entity, b: Entity)
  ensures a.DistanceSq(b) == b.DistanceSq(a)
{
}

/** An entity is at distance zero from itself, and from any entity standing
    at the same point. */
lemma DistanceToSelf(a: Entity, b: Entity)
  ensures a.DistanceSq(a) == 0.0
  ensures a.x == b.x && a.y == b.y ==> a.DistanceSq(b) == 0.0
{
}

/** new Entity(x, y, width, height) (js/Entity.js:2-15). */
function NewEntity(x: real, y: real, width: real, height: real): (e: Entity)
  ensures e.x == x && e.y == y && e.width == width && e.height == height
  ensures e.vx == 0.0 && e.vy == 0.0
  ensures e.health == 100 && e.maxHealth == 100 && e.alive && e.Sound()
  ensures e.animationManager == NewAnimationManager()
  ensures e.facingRight && e.team == Neutral
{
  Entity(x, y, width, height, 0.0, 0.0, 100, 100, true, NewAnimationManager(), true, Neutral)
}

/** The damage a dead entity ignores leaves it untouched, whatever the amount. */
lemma DeadIgnoreDamage(e: Entity, amount: int)
  requires !e.alive
  ensures e.TakeDamage(amount) == e
{
}

/** A negative amount heals a living entity, with no cap at maxHealth. */
lemma NegativeDamageHeals(e: Entity, amount: int)
  requires e.alive && amount < 0 && e.health >= 0
  ensures e.TakeDamage(amount).health == e.health - amount > e.health
  ensures e.TakeDamage(amount).alive
{
}

/** The things that happen to an entity's health and life from outside. */
datatype EntityEvent = Tick(dt: real) | Hit(amount: int)

/** An entity after a run of updates and hits, with the base die(). */
function Replay(e: Entity, events: seq<EntityEvent>): Entity
  decreases |events|
{
  if events == [] then e
  else
    var next := match events[0]
      case Tick(dt) => e.Update(dt)
      case Hit(amount) => e.TakeDamage(amount);
    Replay(next, events[1..])
}

/** Death is final: nothing revives an entity or changes its health after. */
lemma {:induction false} DeathIsFinal(e: Entity, events: seq<EntityEvent>)
  requires !e.alive
  ensures !Replay(e, events).alive
  ensures Replay(e, events).health == e.health
  decreases |events|
{
  if events != [] {
    var next := match events[0]
      case Tick(dt) => e.Update(dt)
      case Hit(amount) => e.TakeDamage(amount);
    DeathIsFinal(next, events[1..]);
  }
}

/** Health never goes negative and every living entity has some left, over
    any run of updates and hits. */
lemma {:induction false} SoundAlways(e: Entity, events: seq<EntityEvent>)
  requires e.Sound()
  ensures Replay(e, events).Sound()
  decreases |events|
{
  if events != [] {
    var next := match events[0]
      case Tick(dt) => e.Update(dt)
      case Hit(amount) => e.TakeDamage(amount);
    SoundAlways(next, events[1..]);
  }
}

/** One row of an entity's animation table: the animation's key, the asset
    name its frames are stored under, the first frame number, how many
    frames to look for, and how it plays. */
datatype AnimSpec = AnimSpec(key: string, assetName: string, first: nat, frameCount: nat, frameRate: real, loop: bool)

/** The frames the asset loader holds for a table row of the given sprite
    type: keys `${type}_${assetName}_${i}`. */
function RowFrames(assets: Assets, spriteType: string, s: AnimSpec): seq<Image>
{
  FoundFrames(assets, spriteType + "_" + s.assetName + "_", s.first, s.frameCount)
}

/** The registrations a table produces: each row whose frames were found,
    later rows overriding earlier ones of the same key. */
function Registrations(assets: Assets, spriteType: string, table: seq<AnimSpec>): (m: map<string, Animation>)
  requires forall s <- table :: s.frameRate != 0.0
  ensures forall name <- m :: |m[name].frames| > 0 && m[name].Valid()
  ensures forall name <- m :: exists s <- table :: s.key == name
  decreases |table|
{
  if table == [] then map[]
  else
    var init := table[..|table| - 1];
    var s := table[|table| - 1];
    assert table == init + [s];
    var m := Registrations(assets, spriteType, init);
    var frames := RowFrames(assets, spriteType, s);
    if |frames| > 0 then m[s.key := NewAnimation(frames, s.frameRate, s.loop)] else m
}

/** The setup loop of the entity constructors (js/Player.js:55-79,
    js/Player.js:98-124, js/Enemy.js:46-67, js/Enemy.js:84-108,
    js/Zombie.js:41-64): for each row, collect its frames and register an
    animation only when at least one frame was found. */
method SetupAnimations(assets: Assets, spriteType: string, table: seq<AnimSpec>) returns (m: AnimationManager)
  requires forall s <- table :: s.frameRate != 0.0
  ensures m.animations == Registrations(assets, spriteType, table)
  ensures m.current.None? && m.currentName == "" && !m.finished
  ensures m.Valid()
{
  m := NewAnimationManager();
  var i := 0;
  while i < |table|
    invariant i <= |table|
    invariant m.animations == Registrations(assets, spriteType, table[..i])
    invariant m.current.None? && m.currentName == "" && !m.finished
  {
    var s := table[i];
    var frames := CollectFrames(assets, spriteType + "_" + s.assetName + "_", s.first, s.frameCount);
    assert table[..i + 1][..i] == table[..i];
    if |frames| > 0 {
      m := m.AddAnimation(s.key, NewAnimation(frames, s.frameRate, s.loop));
    }
    i := i + 1;
  }
  assert table[..|table|] == table;
}

/** An animation key ends up registered exactly when some row of the table
    with that key found at least one frame: rows whose frames are all
    missing register nothing. */
lemma {:induction false} RegisteredIffFound(assets: Assets, spriteType: string, table: seq<AnimSpec>, name: string)
  requires forall s <- table :: s.frameRate != 0.0
  ensures name in Registrations(assets, spriteType, table) <==>
    exists s <- table :: s.key == name && |RowFrames(assets, spriteType, s)| > 0
  decreases |table|
{
  if table != [] {
    var init := table[..|table| - 1];
    var s := table[|table| - 1];
    assert table == init + [s];
    RegisteredIffFound(assets, spriteType, init, name);
    if exists s' <- init :: s'.key == name && |RowFrames(assets, spriteType, s')| > 0 {
      var s' :| s' in init && s'.key == name && |RowFrames(assets, spriteType, s')| > 0;
      assert s' in table;
    }
  }
}

// Who can be hit or hunted. JavaScript passes players, enemies and zombies
// around as plain objects and dispatches takeDamage() dynamically; the model
// names the three kinds in one datatype and dispatches by case.

/** A combatant reference, tagged with the roster it comes from. */
datatype Target = PlayerTarget(player: Player) | EnemyTarget(enemy: Enemy) | ZombieTarget(zombie: Zombie)
{
  /** The object behind the reference. */
  function Ref(): object
  {
    match this
    case PlayerTarget(p) => p
    case EnemyTarget(e) => e
    case ZombieTarget(z) => z
  }

  /** Its Entity state. */
  function Body(): Entity
    reads Ref()
  {
    match this
    case PlayerTarget(p) => p.body
    case EnemyTarget(e) => e.body
    case ZombieTarget(z) => z.body
  }

  /** The side its roster fights for. */
  function Side(): Team
  {
    match this
    case PlayerTarget(_) => PlayerTeam
    case EnemyTarget(_) => EnemyTeam
    case ZombieTarget(_) => ZombieTeam
  }

  /** The reference comes from the given player slot or rosters. */
  predicate From(player: Player?, enemies: seq<Enemy>, zombies: seq<Zombie>)
  {
    match this
    case PlayerTarget(p) => p == player
    case EnemyTarget(e) => e in enemies
    case ZombieTarget(z) => z in zombies
  }
}

/** A candidate as a scan sees it: the reference, and the state of its
    entity at the moment of the scan. */
datatype Sighting = Sighting(target: Target, body: Entity)

/** The alive members of the enemy roster, in roster order, each with its
    current state. */
function AliveEnemies(es: seq<Enemy>): seq<Sighting>
  reads es
  decreases |es|
{
  if es == [] then []
  else
    var init := es[..|es| - 1];
    var last := es[|es| - 1];
    AliveEnemies(init) + (if last.body.alive then [Sighting(EnemyTarget(last), last.body)] else [])
}

/** Exactly the alive enemies are listed, each with its current state. */
lemma {:induction false} AliveEnemiesExact(es: seq<Enemy>)
  ensures forall s <- AliveEnemies(es) ::
    s.target.EnemyTarget? && s.target.enemy in es && s.body == s.target.enemy.body && s.body.alive
  ensures forall e <- es :: e.body.alive ==> Sighting(EnemyTarget(e), e.body) in AliveEnemies(es)
  decreases |es|
{
  if es != [] {
    var init := es[..|es| - 1];
    assert es == init + [es[|es| - 1]];
    AliveEnemiesExact(init);
  }
}

/** The alive members of the zombie roster, in roster order, each with its
    current state. */
function AliveZombies(zs: seq<Zombie>): seq<Sighting>
  reads zs
  decreases |zs|
{
  if zs == [] then []
  else
    var init := zs[..|zs| - 1];
    var last := zs[|zs| - 1];
    AliveZombies(init) + (if last.body.alive then [Sighting(ZombieTarget(last), last.body)] else [])
}

/** Exactly the alive zombies are listed, each with its current state. */
lemma {:induction false} AliveZombiesExact(zs: seq<Zombie>)
  ensures forall s <- AliveZombies(zs) ::
    s.target.ZombieTarget? && s.target.zombie in zs && s.body == s.target.zombie.body && s.body.alive
  ensures forall z <- zs :: z.body.alive ==> Sighting(ZombieTarget(z), z.body) in AliveZombies(zs)
  decreases |zs|
{
  if zs != [] {
    var init := zs[..|zs| - 1];
    assert zs == init + [zs[|zs| - 1]];
    AliveZombiesExact(init);
  }
}

/** The alive combatants not on `team`, in the scan order player, enemies,
    zombies, each with its current state: a bullet's collision candidates
    (js/Bullet.js:57-73), an enemy's possible targets (team enemy: the
    player and the zombies, js/Enemy.js:136-152) and a zombie's (team
    zombie: the player and the enemies, js/Zombie.js:92-102). */
function Opponents(team: Team, player: Player?, enemies: seq<Enemy>, zombies: seq<Zombie>): seq<Sighting>
  reads player, enemies, zombies
{
  (if team != PlayerTeam && player != null && player.body.alive then [Sighting(PlayerTarget(player), player.body)] else []) +
  (if team != EnemyTeam then AliveEnemies(enemies) else []) +
  (if team != ZombieTeam then AliveZombies(zombies) else [])
}

/** Every candidate is an alive combatant of another side, from the given
    slot or rosters, listed with its current state. */
lemma OpponentsSound(team: Team, player: Player?, enemies: seq<Enemy>, zombies: seq<Zombie>)
  ensures forall s <- Opponents(team, player, enemies, zombies) ::
    s.target.From(player, enemies, zombies) && s.target.Side() != team && s.body == s.target.Body() && s.body.alive
{
  AliveEnemiesExact(enemies);
  AliveZombiesExact(zombies);
}

/** Every alive combatant of another side is a candidate. */
lemma OpponentsComplete(team: Team, player: Player?, enemies: seq<Enemy>, zombies: seq<Zombie>)
  ensures player != null && player.body.alive && team != PlayerTeam ==>
    Sighting(PlayerTarget(player), player.body) in Opponents(team, player, enemies, zombies)
  ensures forall e <- enemies :: e.body.alive && team != EnemyTeam ==>
    Sighting(EnemyTarget(e), e.body) in Opponents(team, player, enemies, zombies)
  ensures forall z <- zombies :: z.body.alive && team != ZombieTeam ==>
    Sighting(ZombieTarget(z), z.body) in Opponents(team, player, enemies, zombies)
{
  AliveEnemiesExact(enemies);
  AliveZombiesExact(zombies);
}

/** The reference a scan picked, if any. */
function Sighted(pick: Option<Sighting>): (t: Option<Target>)
  ensures t.Some? <==> pick.Some?
{
  if pick.Some? then Some(pick.value.target) else None
}

/** The state the picked candidate was in at the scan, if any. */
function SeenBody(pick: Option<Sighting>): (e: Option<Entity>)
  ensures e.Some? <==> pick.Some?
{
  if pick.Some? then Some(pick.value.body) else None
}

/** No candidate lies strictly inside `range`. */
predicate NoneInRange(from: Entity, c: seq<Sighting>, range: real)
{
  forall j :: 0 <= j < |c| ==> from.DistanceSq(c[j].body) >= range * range
}

/** Candidate `k` is strictly inside `range`, strictly nearer than every
    candidate before it and no farther than every candidate after it. */
predicate FirstNearestAt(from: Entity, c: seq<Sighting>, range: real, k: int)
{
  0 <= k < |c| && from.DistanceSq(c[k].body) < range * range &&
  (forall j :: 0 <= j < k ==> from.DistanceSq(c[j].body) > from.DistanceSq(c[k].body)) &&
  (forall j :: k < j < |c| ==> from.DistanceSq(c[j].body) >= from.DistanceSq(c[k].body))
}

/** `pick` is what the running-minimum search of findTarget must return:
    the first candidate at the least squared distance, provided it lies
    strictly inside `range`, and none when no candidate is that close. */
predicate NearestPick(from: Entity, c: seq<Sighting>, range: real, pick: Option<Sighting>)
{
  match pick
  case None => NoneInRange(from, c, range)
  case Some(p) => exists k :: 0 <= k < |c| && FirstNearestAt(from, c, range, k) && c[k] == p
}

/** The running minimum of findTarget (js/Enemy.js:132-155,
    js/Zombie.js:88-113) as a fold over squared distances: the last
    candidate replaces the pick of the others only when it is strictly
    nearer than that pick, or, with no pick yet, strictly inside `range`. */
function NearestOf(from: Entity, c: seq<Sighting>, range: real): (r: Option<Sighting>)
  ensures r.Some? ==> r.value in c && from.DistanceSq(r.value.body) < range * range
  decreases |c|
{
  if c == [] then None
  else
    var p := NearestOf(from, c[..|c| - 1], range);
    var s := c[|c| - 1];
    var best := if p.Some? then from.DistanceSq(p.value.body) else range * range;
    if from.DistanceSq(s.body) < best then Some(s) else p
}

/** Appending a candidate no nearer than the range keeps "none in range". */
lemma FarAppended(from: Entity, init: seq<Sighting>, s: Sighting, range: real)
  requires NoneInRange(from, init, range) && from.DistanceSq(s.body) >= range * range
  ensures NoneInRange(from, init + [s], range)
{
  assert forall j :: 0 <= j < |init| ==> (init + [s])[j] == init[j];
}

/** Appending a candidate strictly nearer than everything before it (and
    strictly inside the range) makes it the pick. */
lemma NearerAppended(from: Entity, init: seq<Sighting>, s: Sighting, range: real)
  requires from.DistanceSq(s.body) < range * range
  requires forall j :: 0 <= j < |init| ==> from.DistanceSq(init[j].body) > from.DistanceSq(s.body)
  ensures FirstNearestAt(from, init + [s], range, |init|)
{
  assert forall j :: 0 <= j < |init| ==> (init + [s])[j] == init[j];
}

/** Appending a candidate no nearer than the pick keeps the pick. */
lemma FartherAppended(from: Entity, init: seq<Sighting>, s: Sighting, range: real, k: int)
  requires FirstNearestAt(from, init, range, k)
  requires from.DistanceSq(s.body) >= from.DistanceSq(init[k].body)
  ensures FirstNearestAt(from, init + [s], range, k)
{
  assert forall j :: 0 <= j < |init| ==> (init + [s])[j] == init[j];
}

/** The fold makes the nearest pick: the first candidate at the least
    distance, when that distance is inside the range. */
lemma {:induction false} NearestOfIsNearestPick(from: Entity, c: seq<Sighting>, range: real)
  ensures NearestPick(from, c, range, NearestOf(from, c, range))
  decreases |c|
{
  if c != [] {
    var init := c[..|c| - 1];
    var s := c[|c| - 1];
    assert c == init + [s];
    var ds := from.DistanceSq(s.body);
    NearestOfIsNearestPick(from, init, range);
    match NearestOf(from, init, range)
    case None =>
      if ds < range * range {
        NearerAppended(from, init, s, range);
        assert c[|init|] == s;
      } else {
        FarAppended(from, init, s, range);
      }
    case Some(q) =>
      var k :| FirstNearestAt(from, init, range, k) && init[k] == q;
      if ds < from.DistanceSq(q.body) {
        NearerAppended(from, init, s, range);
        assert c[|init|] == s;
      } else {
        FartherAppended(from, init, s, range, k);
        assert c[k] == q;
      }
  }
}

/** The search itself: one pass over the candidates keeping the nearest
    distance so far, starting from the range. */
method Nearest(from: Entity, cands: seq<Sighting>, range: real) returns (pick: Option<Sighting>)
  ensures pick == NearestOf(from, cands, range)
{
  pick := None;
  var best := range * range;
  var i := 0;
  while i < |cands|
    invariant i <= |cands|
    invariant pick == NearestOf(from, cands[..i], range)
    invariant best == if pick.Some? then from.DistanceSq(pick.value.body) else range * range
  {
    assert cands[..i + 1][..i] == cands[..i];
    var d := from.DistanceSq(cands[i].body);
    if d < best {
      pick := Some(cands[i]);
      best := d;
    }
    i := i + 1;
  }
  assert cands[..i] == cands;
}

/** The nearest pick is unique: the scan has exactly one correct answer,
    so the running minimum is determined by it. */
lemma NearestPickUnique(from: Entity, c: seq<Sighting>, range: real, p: Option<Sighting>, q: Option<Sighting>)
  requires NearestPick(from, c, range, p) && NearestPick(from, c, range, q)
  ensures p == q
{
}

/** A pick is one of the candidates, strictly inside the range, and no
    candidate is nearer. */
lemma NearestPickIsNearest(from: Entity, c: seq<Sighting>, range: real, p: Sighting)
  requires NearestPick(from, c, range, Some(p))
  ensures p in c && from.DistanceSq(p.body) < range * range
  ensures forall s <- c :: from.DistanceSq(s.body) >= from.DistanceSq(p.body)
{
}

/** entity.takeDamage(amount), dispatched to the entity's own override. */
method DamageTarget(t: Target, amount: int, math: MathLib)
  modifies t.Ref()
  ensures t.Body().health == old(t.Body()).TakeDamage(amount).health
  ensures t.Body().alive == old(t.Body()).TakeDamage(amount).alive
{
  match t
  case PlayerTarget(p) => p.TakeDamage(amount);
  case EnemyTarget(e) => e.TakeDamage(amount);
  case ZombieTarget(z) => z.TakeDamage(amount, math);
}

/** The body of an optional target, as the hostile sees it. */
function Seen(t: Option<Target>): Option<Entity>
  reads if t.Some? then {t.value.Ref()} else {}
{
  match t
  case None => None
  case Some(x) => Some(x.Body())
}

/** The `state` strings of the two hostiles: enemies patrol, zombies
    wander, and both chase and attack. */
datatype Behavior = Patrol | Wander | Chase | Attack

/** The state updateBehavior picks (js/Enemy.js:160-185,
    js/Zombie.js:118-141): attack a living target strictly inside the
    attack range, chase one outside it, and roam without one. */
function Engage(seen: Option<Entity>, self: Entity, attackRange: real, roam: Behavior): (b: Behavior)
  requires roam == Patrol || roam == Wander
  ensures b == Attack <==> seen.Some? && seen.value.alive && self.DistanceSq(seen.value) < attackRange * attackRange
  ensures b == Chase <==> seen.Some? && seen.value.alive && self.DistanceSq(seen.value) >= attackRange * attackRange
  ensures b == roam <==> !(seen.Some? && seen.value.alive)
{
  if seen.Some? && seen.value.alive then
    if self.DistanceSq(seen.value) < attackRange * attackRange then Attack else Chase
  else roam
}

/** One frame of a hostile's weapon. */
datatype Strike = Strike(fired: bool, cooldown: real)

/** The cooldown rule of the hostiles (js/Enemy.js:170-173,
    js/Enemy.js:187-189, js/Zombie.js:126-129, js/Zombie.js:143-145): an
    attacking hostile strikes when its cooldown is spent and rearms it, and
    only then does the cooldown tick, so the rearmed cooldown already loses
    the current frame. */
function StrikeStep(attacking: bool, cooldown: real, dt: real, rate: real): (r: Strike)
  ensures r.fired <==> attacking && cooldown <= 0.0
  ensures r.fired ==> r.cooldown == CooldownTick(rate, dt)
  ensures !r.fired ==> r.cooldown == CooldownTick(cooldown, dt)
{
  var fired := attacking && cooldown <= 0.0;
  Strike(fired, CooldownTick(if fired then rate else cooldown, dt))
}

/** The strikes of a hostile that attacks through a run of frames. */
function Strikes(cooldown: real, dts: seq<real>, rate: real): nat
  decreases |dts|
{
  if dts == [] then 0
  else
    var s := StrikeStep(true, cooldown, dts[0], rate);
    (if s.fired then 1 else 0) + Strikes(s.cooldown, dts[1..], rate)
}

/** A hostile with a cooldown left does not strike again while less time
    than that passes. */
lemma {:induction false} NoStrikeWhileCooling(cooldown: real, dts: seq<real>, rate: real)
  requires forall i :: 0 <= i < |dts| ==> dts[i] >= 0.0
  requires Sum(dts) < cooldown
  ensures Strikes(cooldown, dts, rate) == 0
  decreases |dts|
{
  if dts != [] {
    SumNonNegative(dts[1..]);
    var s := StrikeStep(true, cooldown, dts[0], rate);
    assert !s.fired && s.cooldown == cooldown - dts[0];
    NoStrikeWhileCooling(s.cooldown, dts[1..], rate);
  }
}

/** A hostile that keeps attacking, ready at first, strikes once and then
    waits out the whole rate: over frames totalling less than the rate
    after the first, it strikes exactly once. */
lemma StrikeThenWait(cooldown: real, dts: seq<real>, rate: real)
  requires cooldown <= 0.0 && |dts| > 0
  requires forall i :: 0 <= i < |dts| ==> dts[i] >= 0.0
  requires Sum(dts) < rate
  ensures Strikes(cooldown, dts, rate) == 1
{
  SumNonNegative(dts[1..]);
  var s := StrikeStep(true, cooldown, dts[0], rate);
  assert s.fired && s.cooldown == rate - dts[0];
  NoStrikeWhileCooling(s.cooldown, dts[1..], rate);
}

/** The roaming timer of patrol() and wander() (js/Enemy.js:193-199,
    js/Zombie.js:149-155): it accumulates and restarts from 0 once it
    reaches the leg's duration, so it never rests at or above a positive
    duration. */
function RoamTimer(timer: real, duration: real, dt: real): (r: real)
  ensures r == 0.0 <==> timer + dt >= duration || timer + dt == 0.0
  ensures r != 0.0 ==> r == timer + dt
  ensures duration > 0.0 ==> r < duration
  ensures 0.0 <= timer && 0.0 <= dt ==> 0.0 <= r
{
  if timer + dt >= duration then 0.0 else timer + dt
}

/** Entity.update as it runs for an enemy or a zombie (js/Entity.js:17-26),
    whose own die() also stops it (js/Enemy.js:262-266,
    js/Zombie.js:209-214): move, animate, and die if no health is left. */
function HostileSettle(b: Entity, dt: real): (r: Entity)
  ensures r.health == b.health && (r.alive <==> b.alive && b.health > 0)
  ensures b.alive && b.health <= 0 ==> r.vx == 0.0 && r.vy == 0.0
  ensures !(b.alive && b.health <= 0) ==> r == b.Move(dt)
  ensures b.Sound() ==> r.Sound()
{
  var moved := b.Move(dt);
  if moved.health <= 0 && moved.alive then moved.Die().(vx := 0.0, vy := 0.0) else moved
}

/** The last step of every living update (js/Player.js:217-218,
    js/Enemy.js:128-129, js/Zombie.js:84-85): each coordinate is clamped to
    the range that keeps the entity's box inside the world. */
function KeepInWorld(b: Entity, worldWidth: real, worldHeight: real): (r: Entity)
  ensures r == b.(x := r.x, y := r.y)
  ensures b.width <= worldWidth ==> 0.0 <= r.x <= worldWidth - b.width
  ensures b.height <= worldHeight ==> 0.0 <= r.y <= worldHeight - b.height
  ensures 0.0 <= b.x <= worldWidth - b.width ==> r.x == b.x
  ensures 0.0 <= b.y <= worldHeight - b.height ==> r.y == b.y
{
  b.(x := Clamp(b.x, 0.0, worldWidth - b.width), y := Clamp(b.y, 0.0, worldHeight - b.height))
}

// Projectiles (js/Bullet.js): a bullet flies in a straight line, leaves a
// short fading trail, expires after two seconds or on leaving the world, and
// damages the first opposing combatant it touches.

/** One remembered position of the trail, with its drawing opacity. */
datatype TrailPoint = TrailPoint(x: real, y: real, alpha: real)

/** The trail after recording a new position (js/Bullet.js:29-32): push,
    then drop the oldest entry once when the buffer is over its bound. */
function PushTrail(trail: seq<TrailPoint>, p: TrailPoint, maxLength: nat): (r: seq<TrailPoint>)
  requires maxLength > 0
  ensures |trail| <= maxLength ==> |r| <= maxLength
  ensures 0 < |r| <= |trail| + 1 && r[|r| - 1] == p
  // the older entries are the most recent ones of the old trail, in order
  ensures r[..|r| - 1] == trail[|trail| - (|r| - 1)..]
  ensures |trail| < maxLength ==> r == trail + [p]
{
  var pushed := trail + [p];
  if |pushed| > maxLength then pushed[1..] else pushed
}

/** The trail with the opacities of js/Bullet.js:34-36: the i-th of n
    entries gets (i + 1) / n * 0.5. */
function Faded(trail: seq<TrailPoint>): (r: seq<TrailPoint>)
  ensures |r| == |trail|
{
  seq(|trail|, i requires 0 <= i < |trail| =>
    trail[i].(alpha := (i + 1) as real / |trail| as real * 0.5))
}

/** The trail.forEach loop that sets the opacities. */
method Fade(trail: seq<TrailPoint>) returns (r: seq<TrailPoint>)
  ensures r == Faded(trail)
{
  r := trail;
  var i := 0;
  while i < |r|
    invariant |r| == |trail| && i <= |r|
    invariant forall j :: 0 <= j < i ==> r[j] == Faded(trail)[j]
    invariant forall j :: i <= j < |r| ==> r[j] == trail[j]
  {
    r := r[i := r[i].(alpha := (i + 1) as real / |r| as real * 0.5)];
    i := i + 1;
  }
}

/** Fading keeps every position, and the opacities rise strictly along the
    trail, from oldest to newest, never above 0.5. */
lemma FadedAlphas(trail: seq<TrailPoint>)
  ensures forall i :: 0 <= i < |trail| ==>
    Faded(trail)[i].x == trail[i].x && Faded(trail)[i].y == trail[i].y
  ensures forall i :: 0 <= i < |trail| ==> 0.0 < Faded(trail)[i].alpha <= 0.5
  ensures forall i, j :: 0 <= i < j < |trail| ==> Faded(trail)[i].alpha < Faded(trail)[j].alpha
  ensures |trail| > 0 ==> Faded(trail)[|trail| - 1].alpha == 0.5
{
  var n := |trail| as real;
  forall i | 0 <= i < |trail|
    ensures 0.0 < Faded(trail)[i].alpha <= 0.5
  {
    FractionInUnit((i + 1) as real, n);
  }
  forall i, j | 0 <= i < j < |trail|
    ensures Faded(trail)[i].alpha < Faded(trail)[j].alpha
  {
    FractionLess((i + 1) as real, (j + 1) as real, n);
  }
  if |trail| > 0 {
    FractionInUnit(n, n);
  }
}

/** A share of a positive whole that is at most the whole lies in (0, 1]. */
lemma FractionInUnit(k: real, n: real)
  requires 0.0 < k <= n
  ensures 0.0 < k / n <= 1.0
  ensures k == n ==> k / n == 1.0
{
  assert k / n * n == k;
}

/** Dividing by a positive number keeps a strict order. */
lemma FractionLess(a: real, b: real, n: real)
  requires 0.0 < n && a < b
  ensures a / n < b / n
{
  assert b / n == a / n + (b - a) / n;
}

/** The inclusive point-in-box test of collidesWith (js/Bullet.js:90-96):
    unlike entity overlap, a point on the edge counts as inside. */
predicate ContainsPoint(b: Rect, px: real, py: real)
{
  b.x <= px <= b.x + b.width && b.y <= py <= b.y + b.height
}

/** The first candidate whose box holds the point, if any. */
function FirstHit(c: seq<Sighting>, px: real, py: real): (r: Option<Sighting>)
  ensures r.Some? ==> r.value in c && ContainsPoint(r.value.body.Bounds(), px, py)
  ensures r.None? ==> forall s <- c :: !ContainsPoint(s.body.Bounds(), px, py)
  decreases |c|
{
  if c == [] then None
  else if ContainsPoint(c[0].body.Bounds(), px, py) then Some(c[0])
  else FirstHit(c[1..], px, py)
}

/** The hit is the first candidate in scan order whose box holds the
    point: every candidate listed before it misses. */
lemma {:induction false} FirstHitIsFirst(c: seq<Sighting>, px: real, py: real)
  requires FirstHit(c, px, py).Some?
  ensures exists k ::
    0 <= k < |c| && c[k] == FirstHit(c, px, py).value &&
    forall j :: 0 <= j < k ==> !ContainsPoint(c[j].body.Bounds(), px, py)
  decreases |c|
{
  if !ContainsPoint(c[0].body.Bounds(), px, py) {
    FirstHitIsFirst(c[1..], px, py);
    var k :| 0 <= k < |c[1..]| && c[1..][k] == FirstHit(c[1..], px, py).value &&
      forall j :: 0 <= j < k ==> !ContainsPoint(c[1..][j].body.Bounds(), px, py);
    assert c[k + 1] == FirstHit(c, px, py).value;
    assert forall j :: 0 <= j < k + 1 ==> !ContainsPoint(c[j].body.Bounds(), px, py) by {
      forall j | 0 < j < k + 1 ensures !ContainsPoint(c[j].body.Bounds(), px, py) {
        assert c[j] == c[1..][j - 1];
      }
    }
  } else {
    assert c[0] == FirstHit(c, px, py).value;
  }
}

class Bullet {
  var x: real
  var y: real
  const angle: real
  const team: Team
  const assets: Assets
  const speed: real := 600.0
  const damage: int := 20
  const width: real := 16.0
  const height: real := 8.0
  var alive: bool
  var lifeTime: real
  const vx: real
  const vy: real
  const sprite: Option<Image>
  var trail: seq<TrailPoint>
  const maxTrailLength: nat := 5
  /** The candidate the last collision check hit, as it was then. */
  ghost var struck: Option<Sighting>
  /** The candidates the last collision check scanned, as they were then. */
  ghost var scanned: seq<Sighting>

  /** new Bullet(x, y, angle, team, assetLoader) (js/Bullet.js:2-22). */
  constructor (x: real, y: real, angle: real, team: Team, assets: Assets, math: MathLib)
    ensures this.x == x && this.y == y && this.angle == angle && this.team == team
    ensures this.assets == assets && alive && lifeTime == 2000.0 && trail == []
    ensures vx == math.cos(angle) * 600.0 && vy == math.sin(angle) * 600.0
    ensures sprite == assets.get("bullet")
    ensures struck.None? && scanned == []
  {
    this.x := x;
    this.y := y;
    this.angle := angle;
    this.team := team;
    this.assets := assets;
    alive := true;
    lifeTime := 2000.0;
    vx := math.cos(angle) * 600.0;
    vy := math.sin(angle) * 600.0;
    sprite := assets.get("bullet");
    trail := [];
    struck := None;
    scanned := [];
  }

  /** collidesWith(entity) (js/Bullet.js:90-96). */
  predicate CollidesWith(e: Entity)
    reads this
  {
    ContainsPoint(e.Bounds(), x, y)
  }

  /** The position lies outside the world box [0, W] x [0, H]. */
  predicate OutOfWorld(game: Game)
    reads this
  {
    x < 0.0 || x > game.worldWidth || y < 0.0 || y > game.worldHeight
  }

  /** update(deltaTime, game) (js/Bullet.js:24-54). A live bullet records its
      position in the trail, moves, and then either expires (lifetime used
      up or outside the world, with no collision check) or checks for a hit. */
  method Update(dt: real, game: Game, math: MathLib, rng: Random)
    modifies this, game`bullets, game`particles, rng, game.player, game.enemies, game.zombies
    ensures old(alive) && !(lifeTime <= 0.0 || OutOfWorld(game)) ==>
      scanned == old(Opponents(team, game.player, game.enemies, game.zombies)) && struck == FirstHit(scanned, x, y) &&
      (struck.None? ==> alive && game.bullets == old(game.bullets) && game.particles == old(game.particles) &&
                        unchanged(rng) && unchanged(game.PlayerSlot()) && unchanged(game.enemies) && unchanged(game.zombies)) &&
      (struck.Some? ==> !alive && game.bullets == Without(old(game.bullets), this) &&
                        |game.particles| == |old(game.particles)| + 3)
    ensures old(alive) && !(lifeTime <= 0.0 || OutOfWorld(game)) && struck.Some? ==>
      var t := struck.value.target;
      var hurt := struck.value.body.TakeDamage(damage);
      // the target takes the damage through its own takeDamage
      t.Body().health == hurt.health && t.Body().alive == hurt.alive &&
      // no other combatant is touched
      (forall e <- game.enemies :: e != t.Ref() ==> unchanged(e)) &&
      (forall z <- game.zombies :: z != t.Ref() ==> unchanged(z)) &&
      // kill credit goes to the player for its own bullets only
      (game.player != null && game.player != t.Ref() ==>
        game.player.body == old(game.player.body) &&
        var credited := team == PlayerTeam && !hurt.alive;
        game.player.kills == old(game.player.kills) + (if credited then 1 else 0) &&
        game.player.score == old(game.player.score) + (if credited then 100 else 0))
    ensures forall b <- game.bullets :: b in old(game.bullets)
    ensures !old(alive) ==>
      unchanged(this, rng) && game.bullets == old(game.bullets) && game.particles == old(game.particles) &&
      unchanged(game.PlayerSlot()) && unchanged(game.enemies) && unchanged(game.zombies)
    ensures old(alive) ==>
      trail == Faded(PushTrail(old(trail), TrailPoint(old(x), old(y), 1.0), maxTrailLength)) &&
      x == old(x) + vx * (dt / 1000.0) && y == old(y) + vy * (dt / 1000.0) &&
      lifeTime == old(lifeTime) - dt
    ensures old(alive) && (lifeTime <= 0.0 || OutOfWorld(game)) ==>
      !alive && game.bullets == Without(old(game.bullets), this) && game.particles == old(game.particles) &&
      unchanged(rng)
    ensures forall p <- game.particles :: p in old(game.particles) || fresh(p)
  {
    if !alive {
      return;
    }
    ghost var candidates := Opponents(team, game.player, game.enemies, game.zombies);
    Advance(dt);
    assert Opponents(team, game.player, game.enemies, game.zombies) == candidates;
    Resolve(game, math, rng);
  }

  /** The end of update (js/Bullet.js:41-53): a bullet out of lifetime or
      outside the world is destroyed without a collision check; any other
      checks for a hit. */
  method Resolve(game: Game, math: MathLib, rng: Random)
    modifies this`alive, this`struck, this`scanned, game`bullets, game`particles, rng, game.player, game.enemies, game.zombies
    ensures !(lifeTime <= 0.0 || OutOfWorld(game)) ==>
      scanned == old(Opponents(team, game.player, game.enemies, game.zombies)) && struck == FirstHit(scanned, x, y) &&
      (struck.None? ==> alive == old(alive) && game.bullets == old(game.bullets) && game.particles == old(game.particles) &&
                        unchanged(rng) && unchanged(game.PlayerSlot()) && unchanged(game.enemies) && unchanged(game.zombies)) &&
      (struck.Some? ==> !alive && game.bullets == Without(old(game.bullets), this) &&
                        |game.particles| == |old(game.particles)| + 3)
    ensures !(lifeTime <= 0.0 || OutOfWorld(game)) && struck.Some? ==>
      var t := struck.value.target;
      var hurt := struck.value.body.TakeDamage(damage);
      // the target takes the damage through its own takeDamage
      t.Body().health == hurt.health && t.Body().alive == hurt.alive &&
      // no other combatant is touched
      (forall e <- game.enemies :: e != t.Ref() ==> unchanged(e)) &&
      (forall z <- game.zombies :: z != t.Ref() ==> unchanged(z)) &&
      // kill credit goes to the player for its own bullets only
      (game.player != null && game.player != t.Ref() ==>
        game.player.body == old(game.player.body) &&
        var credited := team == PlayerTeam && !hurt.alive;
        game.player.kills == old(game.player.kills) + (if credited then 1 else 0) &&
        game.player.score == old(game.player.score) + (if credited then 100 else 0))
    ensures forall b <- game.bullets :: b in old(game.bullets)
    ensures lifeTime <= 0.0 || OutOfWorld(game) ==>
      !alive && game.bullets == Without(old(game.bullets), this) && game.particles == old(game.particles) &&
      unchanged(rng) && unchanged(game.PlayerSlot()) && unchanged(game.enemies) && unchanged(game.zombies)
    ensures forall p <- game.particles :: p in old(game.particles) || fresh(p)
  {
    if lifeTime <= 0.0 {
      Destroy(game);
      return;
    }
    if OutOfWorld(game) {
      Destroy(game);
      return;
    }
    CheckCollisions(game, math, rng);
  }

  /** The flight step of update (js/Bullet.js:27-42): record the position
      in the trail, refresh its opacities, move along the velocity (pixels
      per second) and spend lifetime. */
  method Advance(dt: real)
    modifies this`trail, this`x, this`y, this`lifeTime
    ensures trail == Faded(PushTrail(old(trail), TrailPoint(old(x), old(y), 1.0), maxTrailLength))
    ensures x == old(x) + vx * (dt / 1000.0) && y == old(y) + vy * (dt / 1000.0)
    ensures lifeTime == old(lifeTime) - dt
  {
    var seconds := dt / 1000.0;
    var pushed := PushTrail(trail, TrailPoint(x, y, 1.0), maxTrailLength);
    trail := Fade(pushed);
    x := x + vx * seconds;
    y := y + vy * seconds;
    lifeTime := lifeTime - dt;
  }

  /** checkCollisions(game) (js/Bullet.js:56-88). The candidates are the
      alive combatants of the other sides, player first, then enemies, then
      zombies; only the first whose box holds the bullet is hit: it takes the
      bullet's damage, a player's bullet that kills it credits the player
      with the kill, three sparks fly and the bullet is destroyed. */
  method CheckCollisions(game: Game, math: MathLib, rng: Random)
    modifies this`alive, this`struck, this`scanned, game`bullets, game`particles, rng, game.player, game.enemies, game.zombies
    ensures scanned == old(Opponents(team, game.player, game.enemies, game.zombies))
    ensures struck == FirstHit(scanned, x, y)
    ensures forall b <- game.bullets :: b in old(game.bullets)
    ensures struck.None? ==>
      alive == old(alive) && game.bullets == old(game.bullets) && game.particles == old(game.particles) &&
      unchanged(rng) && unchanged(game.PlayerSlot()) && unchanged(game.enemies) && unchanged(game.zombies)
    ensures struck.Some? ==>
      !alive && game.bullets == Without(old(game.bullets), this) &&
      // three sparks of impact
      |game.particles| == |old(game.particles)| + 3 &&
      game.particles[..|old(game.particles)|] == old(game.particles) &&
      (forall i :: |old(game.particles)| <= i < |game.particles| ==>
        fresh(game.particles[i]) && game.particles[i].kind == Spark)
    ensures struck.Some? ==>
      var t := struck.value.target;
      var hurt := struck.value.body.TakeDamage(damage);
      // the target takes the damage through its own takeDamage
      t.Body().health == hurt.health && t.Body().alive == hurt.alive &&
      // no other combatant is touched
      (forall e <- game.enemies :: e != t.Ref() ==> unchanged(e)) &&
      (forall z <- game.zombies :: z != t.Ref() ==> unchanged(z)) &&
      // kill credit goes to the player for its own bullets only
      (game.player != null && game.player != t.Ref() ==>
        game.player.body == old(game.player.body) &&
        var credited := team == PlayerTeam && !hurt.alive;
        game.player.kills == old(game.player.kills) + (if credited then 1 else 0) &&
        game.player.score == old(game.player.score) + (if credited then 100 else 0))
  {
    var c, hit := Scan(game);
    scanned := c;
    struck := hit;
    if hit.Some? {
      Impact(hit.value, game, math, rng);
    }
  }

  /** The candidate list and the scan of checkCollisions
      (js/Bullet.js:57-75): the first alive combatant of another side whose
      box holds the bullet. */
  method Scan(game: Game) returns (c: seq<Sighting>, hit: Option<Sighting>)
    ensures c == Opponents(team, game.player, game.enemies, game.zombies)
    ensures hit == FirstHit(c, x, y)
    ensures hit.Some? ==>
      hit.value.target.From(game.player, game.enemies, game.zombies) && hit.value.target.Side() != team &&
      hit.value.body == hit.value.target.Body()
  {
    c := Opponents(team, game.player, game.enemies, game.zombies);
    OpponentsSound(team, game.player, game.enemies, game.zombies);
    hit := FindHit(c);
  }

  /** The hit branch of checkCollisions (js/Bullet.js:76-85): the entity
      takes the bullet's damage, a player's bullet that leaves it dead
      credits the player with the kill, three sparks fly and the bullet is
      destroyed. */
  method Impact(s: Sighting, game: Game, math: MathLib, rng: Random)
    requires s.target.From(game.player, game.enemies, game.zombies) && s.target.Side() != team
    requires s.body == s.target.Body()
    modifies this`alive, game`bullets, game`particles, rng, s.target.Ref(), game.player
    ensures !alive && game.bullets == Without(old(game.bullets), this)
    ensures |game.particles| == |old(game.particles)| + 3
    ensures game.particles[..|old(game.particles)|] == old(game.particles)
    ensures forall i :: |old(game.particles)| <= i < |game.particles| ==>
      fresh(game.particles[i]) && game.particles[i].kind == Spark
    ensures var t := s.target;
      var hurt := s.body.TakeDamage(damage);
      t.Body().health == hurt.health && t.Body().alive == hurt.alive &&
      (forall e <- game.enemies :: e != t.Ref() ==> unchanged(e)) &&
      (forall z <- game.zombies :: z != t.Ref() ==> unchanged(z)) &&
      (game.player != null && game.player != t.Ref() ==>
        game.player.body == old(game.player.body) &&
        var credited := team == PlayerTeam && !hurt.alive;
        game.player.kills == old(game.player.kills) + (if credited then 1 else 0) &&
        game.player.score == old(game.player.score) + (if credited then 100 else 0))
  {
    Strike(s.target, game, math);
    CreateImpactEffect(game, rng);
    Destroy(game);
  }

  /** The body of the hit branch of checkCollisions (js/Bullet.js:77-81):
      the entity takes the bullet's damage, and a player's bullet that
      leaves it dead credits the player with the kill. */
  method Strike(t: Target, game: Game, math: MathLib)
    requires t.From(game.player, game.enemies, game.zombies) && t.Side() != team
    modifies t.Ref(), game.player
    ensures t.Body().health == old(t.Body()).TakeDamage(damage).health
    ensures t.Body().alive == old(t.Body()).TakeDamage(damage).alive
    ensures game.player != null && game.player != t.Ref() ==>
      game.player.body == old(game.player.body) &&
      var credited := team == PlayerTeam && !t.Body().alive;
      game.player.kills == old(game.player.kills) + (if credited then 1 else 0) &&
      game.player.score == old(game.player.score) + (if credited then 100 else 0)
  {
    DamageTarget(t, damage, math);
    if !t.Body().alive && team == PlayerTeam && game.player != null {
      game.player.AddKill();
    }
  }

  /** The `for (let entity of allEntities)` scan: the first candidate the
      bullet collides with. */
  method FindHit(c: seq<Sighting>) returns (hit: Option<Sighting>)
    ensures hit == FirstHit(c, x, y)
  {
    var i := 0;
    while i < |c|
      invariant i <= |c|
      invariant FirstHit(c[i..], x, y) == FirstHit(c, x, y)
    {
      assert c[i..][1..] == c[i + 1..];
      if CollidesWith(c[i].body) {
        return Some(c[i]);
      }
      i := i + 1;
    }
    return None;
  }

  /** createImpactEffect(game) (js/Bullet.js:98-109): three sparks around
      the bullet. */
  method CreateImpactEffect(game: Game, rng: Random)
    modifies game`particles, rng
    ensures |game.particles| == |old(game.particles)| + 3
    ensures game.particles[..|old(game.particles)|] == old(game.particles)
    ensures forall i :: |old(game.particles)| <= i < |game.particles| ==>
      fresh(game.particles[i]) && game.particles[i].alive && game.particles[i].kind == Spark
  {
    AddParticles(x, y, 3, 10.0, Spark, game, assets, rng);
  }

  /** destroy(game) (js/Bullet.js:111-117): this bullet, and only it,
      leaves the bullet roster. */
  method Destroy(game: Game)
    modifies this`alive, game`bullets
    ensures !alive
    ensures game.bullets == Without(old(game.bullets), this)
    ensures this !in old(game.bullets) ==> game.bullets == old(game.bullets)
  {
    alive := false;
    game.bullets := Without(game.bullets, this);
  }
}

/** A trail that starts empty never holds more than five entries, however
    many updates the bullet lives through. */
lemma {:induction false} TrailBounded(trail: seq<TrailPoint>, moves: seq<TrailPoint>)
  requires |trail| <= 5
  ensures |TrailAfter(trail, moves)| <= 5
  decreases |moves|
{
  if moves != [] {
    TrailBounded(Faded(PushTrail(trail, moves[0], 5)), moves[1..]);
  }
}

/** The trail after one update per recorded position. */
function TrailAfter(trail: seq<TrailPoint>, moves: seq<TrailPoint>): seq<TrailPoint>
  decreases |moves|
{
  if moves == [] then trail else TrailAfter(Faded(PushTrail(trail, moves[0], 5)), moves[1..])
}

// Visual effects (js/Particle.js): animated explosions and muzzle flashes
// that live as long as their one-shot animation, and spark and blood
// particles that fly under simple physics until their lifetime runs out.

/** The `type` argument of new Particle(...). */
datatype ParticleKind = Explosion | Muzzle | Spark | Blood

class Particle {
  var x: real
  var y: real
  const kind: ParticleKind
  var alive: bool
  /** The frames found for an animated particle; empty for the others. */
  const frames: seq<Image>
  const width: real
  const height: real
  /** The one-shot animation of an explosion or a muzzle flash. */
  var animation: Option<Animation>
  var vx: real
  var vy: real
  var lifetime: real
  /** Vertical acceleration; 0 stands for JavaScript's unset `gravity`. */
  const gravity: real

  /** new Particle(x, y, type, assetLoader, frameCount = 20)
      (js/Particle.js:2-43). Sparks and blood draw four random numbers: two
      for the velocity and two for a colour that only rendering uses. */
  constructor (x: real, y: real, kind: ParticleKind, assets: Assets, rng: Random, frameCount: nat := 20)
    modifies rng
    ensures this.x == x && this.y == y && this.kind == kind && alive
    ensures |frames| <= frameCount
    ensures kind == Explosion ==>
      frames == FoundFrames(assets, "explosion_", 0, frameCount) &&
      width == 128.0 && height == 128.0 && animation == Some(NewAnimation(frames, 30.0, false)) &&
      rng.calls == old(rng.calls)
    ensures kind == Muzzle ==>
      frames == FoundFrames(assets, "muzzle_", 1, frameCount) &&
      width == 32.0 && height == 32.0 && animation == Some(NewAnimation(frames, 20.0, false)) &&
      rng.calls == old(rng.calls)
    ensures kind == Spark ==>
      frames == [] && width == 4.0 && height == 4.0 && animation == None &&
      vx == (rng.draws(old(rng.calls)) - 0.5) * 200.0 &&
      vy == (rng.draws(old(rng.calls) + 1) - 0.5) * 200.0 &&
      lifetime == 300.0 && gravity == 0.0 && rng.calls == old(rng.calls) + 4
    ensures kind == Blood ==>
      frames == [] && width == 3.0 && height == 3.0 && animation == None &&
      vx == (rng.draws(old(rng.calls)) - 0.5) * 150.0 &&
      vy == rng.draws(old(rng.calls) + 1) * -100.0 - 50.0 &&
      lifetime == 500.0 && gravity == 500.0 && rng.calls == old(rng.calls) + 4
  {
    this.x := x;
    this.y := y;
    this.kind := kind;
    alive := true;
    vx, vy, lifetime := 0.0, 0.0, 0.0;
    match kind {
      case Explosion =>
        var fs := CollectFrames(assets, "explosion_", 0, frameCount);
        frames := fs;
        width, height := 128.0, 128.0;
        animation := Some(NewAnimation(fs, 30.0, false));
        gravity := 0.0;
      case Muzzle =>
        var fs := CollectFrames(assets, "muzzle_", 1, frameCount);
        frames := fs;
        width, height := 32.0, 32.0;
        animation := Some(NewAnimation(fs, 20.0, false));
        gravity := 0.0;
      case Spark =>
        frames := [];
        width, height := 4.0, 4.0;
        animation := None;
        var r1: real := rng.Next();
        var r2: real := rng.Next();
        vx := (r1 - 0.5) * 200.0;
        vy := (r2 - 0.5) * 200.0;
        lifetime := 300.0;
        var hue := rng.Next();
        var lightness := rng.Next();
        gravity := 0.0;
      case Blood =>
        frames := [];
        width, height := 3.0, 3.0;
        animation := None;
        var r1: real := rng.Next();
        var r2: real := rng.Next();
        vx := (r1 - 0.5) * 150.0;
        vy := r2 * -100.0 - 50.0;
        gravity := 500.0;
        lifetime := 500.0;
        var lightness := rng.Next();
        var opacity := rng.Next();
    }
  }

  /** update(deltaTime, game) (js/Particle.js:45-72). An animated particle
      leaves the roster in the very update its animation finishes; a physics
      particle moves, falls when it has gravity, slows horizontally and
      leaves once its lifetime is used up. */
  method Update(dt: real, game: Game)
    modifies this, game`particles
    ensures !old(alive) ==> unchanged(this) && game.particles == old(game.particles)
    ensures old(alive) && old(animation).Some? ==>
      animation == Some(old(animation).value.Update(dt)) &&
      x == old(x) && y == old(y) && vx == old(vx) && vy == old(vy) && lifetime == old(lifetime) &&
      (alive <==> !animation.value.finished) &&
      game.particles == if alive then old(game.particles) else Without(old(game.particles), this)
    ensures old(alive) && old(animation).None? ==>
      animation == None &&
      x == old(x) + old(vx) * (dt / 1000.0) && y == old(y) + old(vy) * (dt / 1000.0) &&
      vy == (if gravity != 0.0 then old(vy) + gravity * (dt / 1000.0) else old(vy)) &&
      vx == (if old(vx) != 0.0 then old(vx) * 0.98 else old(vx)) &&
      lifetime == old(lifetime) - dt &&
      (alive <==> lifetime > 0.0) &&
      game.particles == if alive then old(game.particles) else Without(old(game.particles), this)
  {
    if !alive {
      return;
    }
    if animation.Some? {
      animation := Some(animation.value.Update(dt));
      if animation.value.finished {
        Destroy(game);
      }
    } else {
      var seconds := dt / 1000.0;
      x := x + vx * seconds;
      y := y + vy * seconds;
      if gravity != 0.0 {
        vy := vy + gravity * seconds;
      }
      if vx != 0.0 {
        vx := vx * 0.98;
      }
      lifetime := lifetime - dt;
      if lifetime <= 0.0 {
        Destroy(game);
      }
    }
  }

  /** destroy(game) (js/Particle.js:74-80): this particle, and only it,
      leaves the particle roster. */
  method Destroy(game: Game)
    modifies this`alive, game`particles
    ensures !alive
    ensures game.particles == Without(old(game.particles), this)
    ensures this !in old(game.particles) ==> game.particles == old(game.particles)
  {
    alive := false;
    game.particles := Without(game.particles, this);
  }
}

/** An explosion particle with frames and the time per frame given shows
    every frame once and then leaves: after as many long-enough updates as it
    has frames, its animation is finished. */
lemma ExplosionEnds(a: Animation, dt: real)
  requires a == NewAnimation(a.frames, 30.0, false) && |a.frames| > 0
  requires a.frameDuration <= dt
  ensures Steps(a, dt, |a.frames|).finished
{
  OneShotFinishes(a, dt);
}

/** ParticleSystem.createExplosion(x, y, game, assetLoader)
    (js/Particle.js:114-127): one explosion and fifteen sparks join the
    particle roster. */
method CreateExplosion(x: real, y: real, game: Game, assets: Assets, rng: Random)
  modifies game`particles, rng
  ensures |game.particles| == |old(game.particles)| + 16
  ensures game.particles[..|old(game.particles)|] == old(game.particles)
  ensures game.particles[|old(game.particles)|].kind == Explosion
  ensures forall i :: |old(game.particles)| < i < |game.particles| ==> game.particles[i].kind == Spark
  ensures forall i :: |old(game.particles)| <= i < |game.particles| ==>
    fresh(game.particles[i]) && game.particles[i].alive
{
  var explosion := new Particle(x, y, Explosion, assets, rng);
  game.particles := game.particles + [explosion];
  AddParticles(x, y, 15, 30.0, Spark, game, assets, rng);
}

/** ParticleSystem.createBloodSplatter(x, y, game, assetLoader)
    (js/Particle.js:129-139): ten blood particles join the roster. */
method CreateBloodSplatter(x: real, y: real, game: Game, assets: Assets, rng: Random)
  modifies game`particles, rng
  ensures |game.particles| == |old(game.particles)| + 10
  ensures game.particles[..|old(game.particles)|] == old(game.particles)
  ensures forall i :: |old(game.particles)| <= i < |game.particles| ==>
    fresh(game.particles[i]) && game.particles[i].alive && game.particles[i].kind == Blood
{
  AddParticles(x, y, 10, 10.0, Blood, game, assets, rng);
}

/** ParticleSystem.createDeathEffect(entity, game, assetLoader)
    (js/Particle.js:141-158): ten blood particles for a zombie, eight sparks
    for anything else, around the entity's centre. */
method CreateDeathEffect(entity: Entity, game: Game, assets: Assets, rng: Random)
  modifies game`particles, rng
  ensures |game.particles| == |old(game.particles)| + (if entity.team == ZombieTeam then 10 else 8)
  ensures game.particles[..|old(game.particles)|] == old(game.particles)
  ensures forall i :: |old(game.particles)| <= i < |game.particles| ==>
    fresh(game.particles[i]) && game.particles[i].alive &&
    game.particles[i].kind == (if entity.team == ZombieTeam then Blood else Spark)
{
  var x := entity.x + entity.width / 2.0;
  var y := entity.y + entity.height / 2.0;
  if entity.team == ZombieTeam {
    CreateBloodSplatter(x, y, game, assets, rng);
  } else {
    AddParticles(x, y, 8, 20.0, Spark, game, assets, rng);
  }
}

/** The loop shared by the effect builders: `count` particles of one kind,
    each placed at (x, y) plus a random offset in [-spread/2, spread/2),
    appended in order. */
method AddParticles(x: real, y: real, count: nat, spread: real, kind: ParticleKind,
                    game: Game, assets: Assets, rng: Random)
  modifies game`particles, rng
  ensures |game.particles| == |old(game.particles)| + count
  ensures game.particles[..|old(game.particles)|] == old(game.particles)
  ensures forall i :: |old(game.particles)| <= i < |game.particles| ==>
    fresh(game.particles[i]) && game.particles[i].alive && game.particles[i].kind == kind
{
  var i := 0;
  while i < count
    invariant i <= count
    invariant |game.particles| == |old(game.particles)| + i
    invariant game.particles[..|old(game.particles)|] == old(game.particles)
    invariant forall j :: |old(game.particles)| <= j < |game.particles| ==>
      fresh(game.particles[j]) && game.particles[j].alive && game.particles[j].kind == kind
  {
    var rx: real := rng.Next();
    var ry: real := rng.Next();
    var p := new Particle(x + (rx - 0.5) * spread, y + (ry - 0.5) * spread, kind, assets, rng);
    game.particles := game.particles + [p];
    i := i + 1;
  }
}

// The game world and its director (js/Game.js): the rosters of every live
// object, the per-frame update in its fixed phase order, the wave director
// that spawns ever larger and stronger waves, and the camera.

/** The `gameState` strings. */
datatype GameState = Menu | Playing | GameOver

/** The camera's world position and viewport size. */
datatype Camera = Camera(x: real, y: real, width: real, height: real)

class Game {
  const worldWidth: real := 2000.0
  const worldHeight: real := 1500.0
  var camera: Camera
  var player: Player?
  var enemies: seq<Enemy>
  var zombies: seq<Zombie>
  var bullets: seq<Bullet>
  var particles: seq<Particle>
  var wave: nat
  var waveTimer: real
  const waveDelay: real := 3000.0
  const baseEnemiesPerWave: int := 3
  const baseZombiesPerWave: int := 6
  const maxEnemiesPerWave: int := 10
  const maxZombiesPerWave: int := 20
  var gameState: GameState
  var selectedHero: Option<string>
  const assets: Assets
  var lastTime: real
  var deltaTime: real
  var assetsLoaded: bool

  /** new Game() (js/Game.js:2-40), for a window of the given size. */
  constructor (viewWidth: real, viewHeight: real, assets: Assets)
    ensures camera == Camera(0.0, 0.0, viewWidth, viewHeight)
    ensures player == null && enemies == [] && zombies == [] && bullets == [] && particles == []
    ensures wave == 1 && waveTimer == 0.0 && gameState == Menu && selectedHero == None
    ensures this.assets == assets && lastTime == 0.0 && deltaTime == 0.0 && !assetsLoaded
  {
    camera := Camera(0.0, 0.0, viewWidth, viewHeight);
    player := null;
    enemies, zombies, bullets, particles := [], [], [], [];
    wave, waveTimer := 1, 0.0;
    gameState := Menu;
    selectedHero := None;
    this.assets := assets;
    lastTime, deltaTime := 0.0, 0.0;
    assetsLoaded := false;
  }

  /** The player slot as a frame: empty before a game starts. */
  function PlayerSlot(): set<Player>
    reads this
  {
    if player == null then {} else {player}
  }

  /** createDeathExplosion(entity) (js/Game.js:535-564): twelve sparks
      around the entity's centre, and eight blood particles more for a
      zombie. */
  method CreateDeathExplosion(entity: Entity, rng: Random)
    modifies this`particles, rng
    ensures |particles| == |old(particles)| + DebrisCount(entity.team)
    ensures particles[..|old(particles)|] == old(particles)
    ensures forall i :: |old(particles)| <= i < |old(particles)| + 12 ==> particles[i].kind == Spark
    ensures forall i :: |old(particles)| + 12 <= i < |particles| ==> particles[i].kind == Blood
    ensures forall i :: |old(particles)| <= i < |particles| ==> fresh(particles[i]) && particles[i].alive
  {
    var x := entity.x + entity.width / 2.0;
    var y := entity.y + entity.height / 2.0;
    AddParticles(x, y, 12, 30.0, Spark, this, assets, rng);
    if entity.team == ZombieTeam {
      ghost var sparks := particles;
      AddParticles(x, y, 8, 20.0, Blood, this, assets, rng);
      assert particles[..|sparks|] == sparks;
    }
  }

  /** removeEnemy(enemy) (js/Game.js:566-572): a listed enemy bursts into
      debris and leaves the roster; an unlisted one changes nothing. */
  method RemoveEnemy(enemy: Enemy, rng: Random)
    modifies this`enemies, this`particles, rng
    ensures enemies == Without(old(enemies), enemy)
    ensures enemy !in old(enemies) ==> particles == old(particles) && rng.calls == old(rng.calls)
    ensures enemy in old(enemies) ==>
      |particles| == |old(particles)| + DebrisCount(old(enemy.body.team)) &&
      particles[..|old(particles)|] == old(particles)
    ensures forall p <- particles :: p in old(particles) || fresh(p)
  {
    if enemy in enemies {
      CreateDeathExplosion(enemy.body, rng);
      enemies := Without(enemies, enemy);
    }
  }

  /** removeZombie(zombie) (js/Game.js:574-580). */
  method RemoveZombie(zombie: Zombie, rng: Random)
    modifies this`zombies, this`particles, rng
    ensures zombies == Without(old(zombies), zombie)
    ensures zombie !in old(zombies) ==> particles == old(particles) && rng.calls == old(rng.calls)
    ensures zombie in old(zombies) ==>
      |particles| == |old(particles)| + DebrisCount(old(zombie.body.team)) &&
      particles[..|old(particles)|] == old(particles)
    ensures forall p <- particles :: p in old(particles) || fresh(p)
  {
    if zombie in zombies {
      CreateDeathExplosion(zombie.body, rng);
      zombies := Without(zombies, zombie);
    }
  }

  /** The hero-card click handler (js/Game.js:68-74): the chosen hero is
      remembered for the next start. */
  method SelectHero(hero: string)
    modifies this`selectedHero
    ensures selectedHero == Some(hero)
  {
    selectedHero := Some(hero);
  }

  /** The asset loader's completion callback, and the fallback timer after
      a failed load (js/Game.js:158-173, js/Game.js:180-183): from now on a
      game can start. */
  method FinishLoading()
    modifies this`assetsLoaded
    ensures assetsLoaded
  {
    assetsLoaded := true;
  }

  /** startGame() (js/Game.js:192-215), reached from the start button only
      once a hero is chosen (js/Game.js:77-81). Before the assets are in it
      does nothing; otherwise a game starts at wave 1 with the chosen hero
      in the middle of the world and the first wave spawned around it. */
  method StartGame(math: MathLib, rng: Random)
    requires selectedHero.Some?
    modifies this`gameState, this`wave, this`player, this`enemies, this`zombies, rng
    ensures !old(assetsLoaded) ==>
      gameState == old(gameState) && wave == old(wave) && player == old(player) &&
      enemies == old(enemies) && zombies == old(zombies) && rng.calls == old(rng.calls)
    ensures old(assetsLoaded) ==>
      gameState == Playing && wave == 1 && player != null && fresh(player) &&
      player.body.x == worldWidth / 2.0 && player.body.y == worldHeight / 2.0 &&
      player.heroType == selectedHero.value && player.body.alive && player.score == 0 && player.kills == 0 &&
      |enemies| == |old(enemies)| + EnemyCount(1) && |zombies| == |old(zombies)| + ZombieCount(1)
  {
    if !assetsLoaded {
      return;
    }
    gameState := Playing;
    wave := 1;
    PlaceHero(selectedHero.value);
    SpawnWave(math, rng);
  }

  /** The hero startGame creates (js/Game.js:198-203): fresh, alive, in the
      middle of the world, with no score yet. */
  method PlaceHero(hero: string)
    modifies this`player
    ensures player != null && fresh(player)
    ensures player.body.x == worldWidth / 2.0 && player.body.y == worldHeight / 2.0
    ensures player.heroType == hero && player.body.alive && player.score == 0 && player.kills == 0
  {
    player := new Player(worldWidth / 2.0, worldHeight / 2.0, hero, assets);
  }

  /** The number of soldiers in a wave (js/Game.js:244-247): three, one
      more every second wave, at most ten. */
  function EnemyCount(w: nat): (n: nat)
    ensures baseEnemiesPerWave <= n <= maxEnemiesPerWave
  {
    MinInt(baseEnemiesPerWave + (w as real * 0.5).Floor, maxEnemiesPerWave)
  }

  /** The number of zombies in a wave (js/Game.js:249-252): six, plus 0.7
      per wave rounded down, at most twenty. */
  function ZombieCount(w: nat): (n: nat)
    ensures baseZombiesPerWave <= n <= maxZombiesPerWave
  {
    MinInt(baseZombiesPerWave + (w as real * 0.7).Floor, maxZombiesPerWave)
  }

  /** Later waves are never smaller. */
  lemma WaveSizesGrow(v: nat, w: nat)
    requires v <= w
    ensures EnemyCount(v) <= EnemyCount(w)
    ensures ZombieCount(v) <= ZombieCount(w)
  {
    assert v as real * 0.5 <= w as real * 0.5;
    assert v as real * 0.7 <= w as real * 0.7;
  }

  /** The caps are reached exactly from wave 14 for soldiers and wave 20
      for zombies on. */
  lemma WaveSizesCap(w: nat)
    ensures EnemyCount(w) == maxEnemiesPerWave <==> w >= 14
    ensures ZombieCount(w) == maxZombiesPerWave <==> w >= 20
  {
    if w >= 20 {
      assert w as real * 0.7 >= 14.0;
    }
  }

  /** What spawnWave makes of a new soldier (js/Game.js:257-275): alive, at
      least 64 px inside the world, with health and speed of the wave. */
  predicate WaveEnemy(e: Enemy)
    reads this, e
  {
    e.body.alive && e.body.team == EnemyTeam &&
    e.body.maxHealth == 80 + wave * 10 && e.body.health == e.body.maxHealth &&
    e.speed == 80.0 + wave as real * 5.0 &&
    64.0 <= e.body.x <= worldWidth - 64.0 && 64.0 <= e.body.y <= worldHeight - 64.0
  }

  /** What spawnWave makes of a new zombie (js/Game.js:279-297). */
  predicate WaveZombie(z: Zombie)
    reads this, z
  {
    z.body.alive && z.body.team == ZombieTeam &&
    z.body.maxHealth == 60 + wave * 8 && z.body.health == z.body.maxHealth &&
    z.speed == 40.0 + wave as real * 3.0 &&
    64.0 <= z.body.x <= worldWidth - 64.0 && 64.0 <= z.body.y <= worldHeight - 64.0
  }

  /** spawnWave() (js/Game.js:239-299): the wave's soldiers, then its
      zombies, are appended to their rosters, around the player. */
  method SpawnWave(math: MathLib, rng: Random)
    requires player != null
    modifies this`enemies, this`zombies, rng
    ensures |enemies| == |old(enemies)| + EnemyCount(wave) && enemies[..|old(enemies)|] == old(enemies)
    ensures forall i :: |old(enemies)| <= i < |enemies| ==> fresh(enemies[i]) && WaveEnemy(enemies[i])
    ensures |zombies| == |old(zombies)| + ZombieCount(wave) && zombies[..|old(zombies)|] == old(zombies)
    ensures forall i :: |old(zombies)| <= i < |zombies| ==> fresh(zombies[i]) && WaveZombie(zombies[i])
  {
    SpawnEnemies(math, rng);
    SpawnZombies(math, rng);
  }

  /** The soldier loop of spawnWave (js/Game.js:257-276): soldier i stands
      400 to 700 px from the player at an angle spread evenly around it,
      clamped into the world, of a random type. */
  method SpawnEnemies(math: MathLib, rng: Random)
    requires player != null
    modifies this`enemies, rng
    ensures |enemies| == |old(enemies)| + EnemyCount(wave) && enemies[..|old(enemies)|] == old(enemies)
    ensures forall i :: |old(enemies)| <= i < |enemies| ==> fresh(enemies[i]) && WaveEnemy(enemies[i])
  {
    var enemyTypes := ["Soldier1", "Soldier2", "Soldier3", "Soldier4"];
    var count := EnemyCount(wave);
    var i := 0;
    while i < count
      invariant i <= count
      invariant |enemies| == |old(enemies)| + i && enemies[..|old(enemies)|] == old(enemies)
      invariant forall j :: |old(enemies)| <= j < |enemies| ==> fresh(enemies[j]) && WaveEnemy(enemies[j])
    {
      var enemy := SpawnEnemy(i, count, enemyTypes, math, rng);
      enemies := enemies + [enemy];
      i := i + 1;
    }
  }

  /** One pass of the soldier loop (js/Game.js:258-273): three draws place
      the soldier and pick its type, then it is made as strong as the wave. */
  method SpawnEnemy(i: nat, count: nat, enemyTypes: seq<string>, math: MathLib, rng: Random) returns (enemy: Enemy)
    requires player != null && i < count && |enemyTypes| == 4
    modifies rng
    ensures fresh(enemy) && WaveEnemy(enemy)
    // the third draw picks the type
    ensures enemy.enemyType == enemyTypes[(rng.draws(old(rng.calls) + 2) * 4.0).Floor]
  {
    var x, y, enemyType := EnemySpot(i, count, enemyTypes, math, rng);
    enemy := new Enemy(Clamp(x, 64.0, worldWidth - 64.0), Clamp(y, 64.0, worldHeight - 64.0),
                       enemyType, assets, rng);
    enemy.body := enemy.body.(maxHealth := 80 + wave * 10);
    enemy.body := enemy.body.(health := enemy.body.maxHealth);
    enemy.speed := 80.0 + wave as real * 5.0;
  }

  /** The three draws of a soldier's spawn (js/Game.js:258-266): its angle
      around the player (its share of the circle plus up to half a radian),
      its distance (400 to 700 px), and its type. */
  method EnemySpot(i: nat, count: nat, enemyTypes: seq<string>, math: MathLib, rng: Random)
    returns (x: real, y: real, enemyType: string)
    requires player != null && i < count && |enemyTypes| == 4
    modifies rng
    ensures rng.calls == old(rng.calls) + 3
    ensures var angle := (PI * 2.0 / count as real) * i as real + rng.draws(old(rng.calls)) * 0.5;
      var distance := 400.0 + rng.draws(old(rng.calls) + 1) * 300.0;
      x == player.body.x + math.cos(angle) * distance && y == player.body.y + math.sin(angle) * distance
    ensures enemyType == enemyTypes[(rng.draws(old(rng.calls) + 2) * 4.0).Floor]
  {
    var r1: real := rng.Next();
    var angle := (PI * 2.0 / count as real) * i as real + r1 * 0.5;
    var r2: real := rng.Next();
    var distance := 400.0 + r2 * 300.0;
    x := player.body.x + math.cos(angle) * distance;
    y := player.body.y + math.sin(angle) * distance;
    var r3: real := rng.Next();
    enemyType := enemyTypes[(r3 * 4.0).Floor];
  }

  /** The zombie loop of spawnWave (js/Game.js:279-298): each zombie stands
      300 to 700 px from the player in a random direction, clamped into the
      world, of a random type. */
  method SpawnZombies(math: MathLib, rng: Random)
    requires player != null
    modifies this`zombies, rng
    ensures |zombies| == |old(zombies)| + ZombieCount(wave) && zombies[..|old(zombies)|] == old(zombies)
    ensures forall i :: |old(zombies)| <= i < |zombies| ==> fresh(zombies[i]) && WaveZombie(zombies[i])
  {
    var zombieTypes := ["Zombie01", "Zombie02", "Zombie3"];
    var count := ZombieCount(wave);
    var i := 0;
    while i < count
      invariant i <= count
      invariant |zombies| == |old(zombies)| + i && zombies[..|old(zombies)|] == old(zombies)
      invariant forall j :: |old(zombies)| <= j < |zombies| ==> fresh(zombies[j]) && WaveZombie(zombies[j])
    {
      var zombie := SpawnZombie(zombieTypes, math, rng);
      zombies := zombies + [zombie];
      i := i + 1;
    }
  }

  /** One pass of the zombie loop (js/Game.js:280-295). */
  method SpawnZombie(zombieTypes: seq<string>, math: MathLib, rng: Random) returns (zombie: Zombie)
    requires player != null && |zombieTypes| == 3
    modifies rng
    ensures fresh(zombie) && WaveZombie(zombie)
    // the third draw picks the type
    ensures var t := zombieTypes[(rng.draws(old(rng.calls) + 2) * 3.0).Floor];
      zombie.zombieType == if t == "" then "Zombies01" else t
  {
    var x, y, zombieType := ZombieSpot(zombieTypes, math, rng);
    zombie := new Zombie(Clamp(x, 64.0, worldWidth - 64.0), Clamp(y, 64.0, worldHeight - 64.0),
                         zombieType, assets, rng);
    zombie.body := zombie.body.(maxHealth := 60 + wave * 8);
    zombie.body := zombie.body.(health := zombie.body.maxHealth);
    zombie.speed := 40.0 + wave as real * 3.0;
  }

  /** The three draws of a zombie's spawn (js/Game.js:280-288): its angle
      around the player, its distance (300 to 700 px), and its type. */
  method ZombieSpot(zombieTypes: seq<string>, math: MathLib, rng: Random) returns (x: real, y: real, zombieType: string)
    requires player != null && |zombieTypes| == 3
    modifies rng
    ensures rng.calls == old(rng.calls) + 3
    ensures var angle := rng.draws(old(rng.calls)) * PI * 2.0;
      var distance := 300.0 + rng.draws(old(rng.calls) + 1) * 400.0;
      x == player.body.x + math.cos(angle) * distance && y == player.body.y + math.sin(angle) * distance
    ensures zombieType == zombieTypes[(rng.draws(old(rng.calls) + 2) * 3.0).Floor]
  {
    var r1: real := rng.Next();
    var angle := r1 * PI * 2.0;
    var r2: real := rng.Next();
    var distance := 300.0 + r2 * 400.0;
    x := player.body.x + math.cos(angle) * distance;
    y := player.body.y + math.sin(angle) * distance;
    var r3: real := rng.Next();
    zombieType := zombieTypes[(r3 * 3.0).Floor];
  }

  /** gameLoop(currentTime) (js/Game.js:301-313), one animation frame:
      outside a game it does nothing; otherwise the time since the last
      frame, capped at 100 ms, drives one update. */
  method GameLoop(currentTime: real, math: MathLib, rng: Random)
    requires gameState == Playing ==> player != null
    modifies this`deltaTime, this`lastTime, this`camera, this`enemies, this`zombies, this`bullets, this`particles,
      this`wave, this`waveTimer, this`gameState, rng, player,
      enemies, zombies, bullets, particles
    ensures old(gameState) != Playing ==> unchanged(this) && unchanged(rng)
    ensures old(gameState) == Playing ==>
      lastTime == currentTime && deltaTime == ClampDelta(currentTime - old(lastTime)) &&
      (gameState == Playing || gameState == GameState.GameOver)
  {
    if gameState != Playing {
      return;
    }
    deltaTime := currentTime - lastTime;
    lastTime := currentTime;
    if deltaTime > 100.0 {
      deltaTime := 100.0;
    }
    Update(deltaTime, math, rng);
  }

  /** update(deltaTime) (js/Game.js:315-374), run by gameLoop while a game
      is on (js/Game.js:302). The player moves first and the camera follows;
      if the player is dead the game is over and nothing else moves this
      frame. Otherwise the rest of the world takes its turn. */
  method Update(dt: real, math: MathLib, rng: Random)
    requires player != null && gameState == Playing
    modifies this`camera, this`enemies, this`zombies, this`bullets, this`particles, this`wave, this`waveTimer,
      this`gameState, rng, player,
      enemies, zombies, bullets, particles
    ensures gameState == Playing || gameState == GameState.GameOver
    // the game ends exactly when the player is dead after its own update
    ensures gameState == GameState.GameOver <==> !(old(player.body.alive) && old(player.body.health) > 0)
    ensures gameState == GameState.GameOver ==>
      !player.body.alive && enemies == old(enemies) && zombies == old(zombies) &&
      wave == old(wave) && waveTimer == old(waveTimer) &&
      (forall e <- enemies :: unchanged(e)) && (forall z <- zombies :: unchanged(z)) &&
      (forall b <- old(bullets) :: unchanged(b)) && (forall p <- old(particles) :: unchanged(p))
    ensures gameState == Playing ==>
      (forall e <- enemies :: e.body.alive || !e.body.animationManager.IsFinished()) &&
      (forall z <- zombies :: z.body.alive || !z.body.animationManager.IsFinished()) &&
      (forall b <- bullets :: b.alive) && (forall p <- particles :: p.alive) &&
      (wave == old(wave) || wave == old(wave) + 1) &&
      (0.0 <= old(waveTimer) < waveDelay && 0.0 <= dt ==> 0.0 <= waveTimer < waveDelay) &&
      (forall e <- old(enemies) :: e.body.alive ==> e in enemies) &&
      (forall z <- old(zombies) :: z.body.alive ==> z in zombies)
  {
    PlayerTurn(dt, math, rng);
    if !player.body.alive {
      GameOver();
      return;
    }
    assert forall i :: 0 <= i < |bullets| ==> bullets[i] in old(bullets) || fresh(bullets[i]);
    assert forall i :: 0 <= i < |particles| ==> particles[i] in old(particles) || fresh(particles[i]);
    UpdateWorld(dt, math, rng);
  }

  /** The player's turn of update (js/Game.js:317-318): the player updates
      itself and the camera follows it. */
  method PlayerTurn(dt: real, math: MathLib, rng: Random)
    requires player != null
    modifies this`camera, this`bullets, this`particles, rng, player
    // the player is dead afterwards iff it was dead or had no health left
    ensures player.body.alive <==> old(player.body.alive) && old(player.body.health) > 0
    ensures camera == old(camera).(x := CameraAxis(player.body.x, camera.width, worldWidth),
                                   y := CameraAxis(player.body.y, camera.height, worldHeight))
    ensures forall b <- bullets :: b in old(bullets) || fresh(b)
    ensures forall p <- particles :: p in old(particles) || fresh(p)
  {
    player.Update(dt, this, math, rng);
    UpdateCamera();
  }

  /** The rest of update once the player is known to be alive
      (js/Game.js:327-373): the rosters' turns, the pruning, and the wave
      clock. */
  method UpdateWorld(dt: real, math: MathLib, rng: Random)
    requires player != null
    modifies this`enemies, this`zombies, this`bullets, this`particles, this`wave, this`waveTimer, rng, player,
      enemies, zombies, bullets, particles
    ensures forall e <- enemies :: e.body.alive || !e.body.animationManager.IsFinished()
    ensures forall z <- zombies :: z.body.alive || !z.body.animationManager.IsFinished()
    ensures forall b <- bullets :: b.alive
    ensures forall p <- particles :: p.alive
    ensures wave == old(wave) || wave == old(wave) + 1
    ensures 0.0 <= old(waveTimer) < waveDelay && 0.0 <= dt ==> 0.0 <= waveTimer < waveDelay
    ensures forall e <- old(enemies) :: e.body.alive ==> e in enemies
    ensures forall z <- old(zombies) :: z.body.alive ==> z in zombies
  {
    UpdateRosters(dt, math, rng);
    Tidy(dt, math, rng);
  }

  /** The end of update (js/Game.js:332-373): the filters, then the wave
      clock. Nobody still alive leaves a roster, and everybody left in one
      is alive or still showing a death. */
  method Tidy(dt: real, math: MathLib, rng: Random)
    requires player != null
    modifies this`enemies, this`zombies, this`bullets, this`particles, this`wave, this`waveTimer, rng,
      player`body, player`score
    ensures forall e <- enemies :: e.body.alive || !e.body.animationManager.IsFinished()
    ensures forall z <- zombies :: z.body.alive || !z.body.animationManager.IsFinished()
    ensures forall b <- bullets :: b.alive
    ensures forall p <- particles :: p.alive
    ensures wave == old(wave) || wave == old(wave) + 1
    ensures 0.0 <= old(waveTimer) < waveDelay && 0.0 <= dt ==> 0.0 <= waveTimer < waveDelay
    ensures forall e <- old(enemies) :: e.body.alive ==> e in enemies
    ensures forall z <- old(zombies) :: z.body.alive ==> z in zombies
  {
    Prune(rng);
    CheckWave(dt, math, rng);
  }

  /** The four forEach phases of update (js/Game.js:327-330), in order.
      Each visits the indices its roster had when the phase began; an entry
      that leaves its roster during the phase shifts the later ones down,
      so the entry right after it is skipped this frame, and entries added
      during the phase wait for the next frame. */
  method UpdateRosters(dt: real, math: MathLib, rng: Random)
    modifies this`enemies, this`zombies, this`bullets, this`particles, rng, player,
      enemies, zombies, bullets, particles
    ensures forall e <- enemies :: e in old(enemies)
    ensures forall i :: 0 <= i < |enemies| ==> enemies[i] in old(enemies)
    ensures forall z <- zombies :: z in old(zombies)
    ensures forall i :: 0 <= i < |zombies| ==> zombies[i] in old(zombies)
    ensures forall b <- bullets :: b in old(bullets) || fresh(b)
    ensures forall i :: 0 <= i < |bullets| ==> bullets[i] in old(bullets) || fresh(bullets[i])
    ensures forall p <- particles :: p in old(particles) || fresh(p)
    ensures forall i :: 0 <= i < |particles| ==> particles[i] in old(particles) || fresh(particles[i])
    ensures forall e <- old(enemies) :: e.body.alive ==> e in enemies
    ensures forall z <- old(zombies) :: z.body.alive ==> z in zombies
  {
    UpdateEnemies(dt, math, rng);
    UpdateZombies(dt, math, rng);
    UpdateBullets(dt, math, rng);
    UpdateParticles(dt);
  }

  /** this.enemies.forEach(enemy => enemy.update(deltaTime, this)). */
  method UpdateEnemies(dt: real, math: MathLib, rng: Random)
    modifies this`enemies, this`bullets, this`particles, rng, enemies
    ensures forall e <- enemies :: e in old(enemies)
    ensures forall i :: 0 <= i < |enemies| ==> enemies[i] in old(enemies)
    ensures forall e <- old(enemies) :: e.body.alive ==> e in enemies
    ensures forall b <- bullets :: b in old(bullets) || fresh(b)
    ensures forall i :: 0 <= i < |bullets| ==> bullets[i] in old(bullets) || fresh(bullets[i])
    ensures forall p <- particles :: p in old(particles) || fresh(p)
    ensures forall i :: 0 <= i < |particles| ==> particles[i] in old(particles) || fresh(particles[i])
  {
    var n := |enemies|;
    for k := 0 to n
      invariant forall e <- enemies :: e in old(enemies)
      invariant forall e <- old(enemies) :: e.body.alive ==> e in enemies
      invariant forall b <- bullets :: b in old(bullets) || fresh(b)
      invariant forall p <- particles :: p in old(particles) || fresh(p)
    {
      if k < |enemies| {
        var e := enemies[k];
        assert e in old(enemies);
        e.Update(dt, this, math, rng);
      }
    }
  }

  /** this.zombies.forEach(zombie => zombie.update(deltaTime, this)): a
      biting zombie may hurt the player or a soldier. */
  method UpdateZombies(dt: real, math: MathLib, rng: Random)
    modifies this`zombies, this`particles, rng, zombies, player, enemies
    ensures forall z <- zombies :: z in old(zombies)
    ensures forall i :: 0 <= i < |zombies| ==> zombies[i] in old(zombies)
    ensures forall z <- old(zombies) :: z.body.alive ==> z in zombies
    ensures forall p <- particles :: p in old(particles) || fresh(p)
    ensures forall i :: 0 <= i < |particles| ==> particles[i] in old(particles) || fresh(particles[i])
  {
    var n := |zombies|;
    for k := 0 to n
      invariant forall z <- zombies :: z in old(zombies)
      invariant forall z <- old(zombies) :: z.body.alive ==> z in zombies
      invariant forall p <- particles :: p in old(particles) || fresh(p)
    {
      if k < |zombies| {
        var z := zombies[k];
        assert z in old(zombies);
        z.Update(dt, this, math, rng);
      }
    }
  }

  /** this.bullets.forEach(bullet => bullet.update(deltaTime, this)): a
      bullet may hit any combatant. */
  method UpdateBullets(dt: real, math: MathLib, rng: Random)
    modifies this`bullets, this`particles, rng, bullets, player, enemies, zombies
    ensures forall b <- bullets :: b in old(bullets)
    ensures forall i :: 0 <= i < |bullets| ==> bullets[i] in old(bullets)
    ensures forall p <- particles :: p in old(particles) || fresh(p)
    ensures forall i :: 0 <= i < |particles| ==> particles[i] in old(particles) || fresh(particles[i])
  {
    var n := |bullets|;
    for k := 0 to n
      invariant forall b <- bullets :: b in old(bullets)
      invariant forall p <- particles :: p in old(particles) || fresh(p)
    {
      if k < |bullets| {
        var b := bullets[k];
        assert b in old(bullets);
        b.Update(dt, this, math, rng);
      }
    }
  }

  /** this.particles.forEach(particle => particle.update(deltaTime, this)). */
  method UpdateParticles(dt: real)
    modifies this`particles, particles
    ensures forall p <- particles :: p in old(particles)
    ensures forall i :: 0 <= i < |particles| ==> particles[i] in old(particles)
  {
    var n := |particles|;
    for k := 0 to n
      invariant forall p <- particles :: p in old(particles)
    {
      if k < |particles| {
        var p := particles[k];
        assert p in old(particles);
        p.Update(dt, this);
      }
    }
  }

  /** The pruning filters of update (js/Game.js:332-350): a dead soldier or
      zombie whose death animation is over bursts into debris and leaves;
      then bullets and particles, the new debris included, keep exactly the
      alive ones. */
  method Prune(rng: Random)
    modifies this`enemies, this`zombies, this`bullets, this`particles, rng
    ensures forall e <- enemies :: e.body.alive || !e.body.animationManager.IsFinished()
    ensures forall z <- zombies :: z.body.alive || !z.body.animationManager.IsFinished()
    ensures forall b <- bullets :: b.alive
    ensures forall p <- particles :: p.alive
    ensures forall p <- old(particles) :: p.alive ==> p in particles
    ensures forall e <- old(enemies) :: e in enemies <==> e.body.alive || !e.body.animationManager.IsFinished()
    ensures forall e <- enemies :: e in old(enemies)
    ensures forall z <- old(zombies) :: z in zombies <==> z.body.alive || !z.body.animationManager.IsFinished()
    ensures forall z <- zombies :: z in old(zombies)
    ensures forall b <- old(bullets) :: b in bullets <==> b.alive
    ensures forall b <- bullets :: b in old(bullets)
  {
    PruneEnemies(rng);
    PruneZombies(rng);
    SweepBullets();
    SweepParticles();
  }

  /** The soldier filter (js/Game.js:333-339): the debris of each soldier
      that leaves is appended to the particles. */
  method PruneEnemies(rng: Random)
    modifies this`enemies, this`particles, rng
    ensures enemies == Filter(old(enemies), EnemyMask(old(enemies)))
    ensures forall e <- enemies :: e.body.alive || !e.body.animationManager.IsFinished()
    ensures forall e <- old(enemies) :: e in enemies <==> e.body.alive || !e.body.animationManager.IsFinished()
    ensures forall e <- enemies :: e in old(enemies)
    ensures forall p <- old(particles) :: p in particles
    ensures forall i :: 0 <= i < |particles| ==> particles[i] in old(particles) || fresh(particles[i])
    ensures 12 * (|old(enemies)| - |enemies|) <= |particles| - |old(particles)| <= 20 * (|old(enemies)| - |enemies|)
  {
    var es := enemies;
    ghost var mask := EnemyMask(es);
    var kept: seq<Enemy> := [];
    for i := 0 to |es|
      invariant kept == Filter(es[..i], mask[..i])
      invariant 12 * (i - |kept|) <= |particles| - |old(particles)| <= 20 * (i - |kept|)
      invariant |particles| >= |old(particles)| && particles[..|old(particles)|] == old(particles)
      invariant forall j :: |old(particles)| <= j < |particles| ==> fresh(particles[j]) && particles[j].alive
    {
      assert es[..i + 1][..i] == es[..i] && mask[..i + 1][..i] == mask[..i];
      if !es[i].body.alive && es[i].body.animationManager.IsFinished() {
        CreateDeathExplosion(es[i].body, rng);
      } else {
        kept := kept + [es[i]];
      }
    }
    assert es[..|es|] == es && mask[..|es|] == mask;
    enemies := kept;
    FilterKeepsExactly(es, mask);
  }

  /** The zombie filter (js/Game.js:341-347). */
  method PruneZombies(rng: Random)
    modifies this`zombies, this`particles, rng
    ensures zombies == Filter(old(zombies), ZombieMask(old(zombies)))
    ensures forall z <- zombies :: z.body.alive || !z.body.animationManager.IsFinished()
    ensures forall z <- old(zombies) :: z in zombies <==> z.body.alive || !z.body.animationManager.IsFinished()
    ensures forall z <- zombies :: z in old(zombies)
    ensures forall p <- old(particles) :: p in particles
    ensures forall i :: 0 <= i < |particles| ==> particles[i] in old(particles) || fresh(particles[i])
    ensures 12 * (|old(zombies)| - |zombies|) <= |particles| - |old(particles)| <= 20 * (|old(zombies)| - |zombies|)
  {
    var zs := zombies;
    ghost var mask := ZombieMask(zs);
    var kept: seq<Zombie> := [];
    for i := 0 to |zs|
      invariant kept == Filter(zs[..i], mask[..i])
      invariant 12 * (i - |kept|) <= |particles| - |old(particles)| <= 20 * (i - |kept|)
      invariant |particles| >= |old(particles)| && particles[..|old(particles)|] == old(particles)
      invariant forall j :: |old(particles)| <= j < |particles| ==> fresh(particles[j]) && particles[j].alive
    {
      assert zs[..i + 1][..i] == zs[..i] && mask[..i + 1][..i] == mask[..i];
      if !zs[i].body.alive && zs[i].body.animationManager.IsFinished() {
        CreateDeathExplosion(zs[i].body, rng);
      } else {
        kept := kept + [zs[i]];
      }
    }
    assert zs[..|zs|] == zs && mask[..|zs|] == mask;
    zombies := kept;
    FilterKeepsExactly(zs, mask);
  }

  /** this.bullets = this.bullets.filter(b => b.alive) (js/Game.js:349). */
  method SweepBullets()
    modifies this`bullets
    ensures bullets == Filter(old(bullets), BulletMask(old(bullets)))
    ensures forall b <- bullets :: b.alive
    ensures forall b <- old(bullets) :: b.alive <==> b in bullets
    ensures forall b <- bullets :: b in old(bullets)
  {
    bullets := Filter(bullets, BulletMask(bullets));
    FilterKeepsExactly(old(bullets), BulletMask(old(bullets)));
  }

  /** this.particles = this.particles.filter(p => p.alive) (js/Game.js:350). */
  method SweepParticles()
    modifies this`particles
    ensures particles == Filter(old(particles), ParticleMask(old(particles)))
    ensures forall p <- particles :: p.alive
    ensures forall p <- old(particles) :: p.alive <==> p in particles
  {
    particles := Filter(particles, ParticleMask(particles));
    FilterKeepsExactly(old(particles), ParticleMask(old(particles)));
  }

  /** The wave check at the end of update (js/Game.js:352-373): once the
      field has been clear for waveDelay, the next wave comes with a score
      bonus and a small heal. */
  method CheckWave(dt: real, math: MathLib, rng: Random)
    requires player != null
    modifies this`waveTimer, this`wave, this`enemies, this`zombies, player`body, player`score, rng
    ensures var clock := WaveTick(old(|AliveEnemies(enemies)| == 0 && |AliveZombies(zombies)| == 0),
                                  old(waveTimer), dt, waveDelay);
      waveTimer == clock.timer && wave == old(wave) + (if clock.advance then 1 else 0) &&
      (!clock.advance ==>
        enemies == old(enemies) && zombies == old(zombies) &&
        player.body == old(player.body) && player.score == old(player.score)) &&
      (clock.advance ==>
        player.score == old(player.score) + WaveBonus(wave) &&
        player.body == old(player.body).(health := Heal(old(player.body.health), old(player.body.maxHealth))) &&
        |enemies| == |old(enemies)| + EnemyCount(wave) && |zombies| == |old(zombies)| + ZombieCount(wave))
    ensures forall e <- enemies :: e in old(enemies) || (fresh(e) && e.body.alive)
    ensures forall z <- zombies :: z in old(zombies) || (fresh(z) && z.body.alive)
    ensures forall e <- old(enemies) :: e in enemies
    ensures forall z <- old(zombies) :: z in zombies
  {
    var cleared := |AliveEnemies(enemies)| == 0 && |AliveZombies(zombies)| == 0;
    if cleared {
      waveTimer := waveTimer + dt;
      if waveTimer >= waveDelay {
        waveTimer := 0.0;
        wave := wave + 1;
        var waveBonus := 1000 + wave * 250;
        player.AddScore(waveBonus);
        player.body := player.body.(health := MinInt(player.body.maxHealth, player.body.health + 20));
        SpawnWave(math, rng);
      }
    } else {
      waveTimer := 0.0;
    }
  }

  /** updateCamera() (js/Game.js:376-382): the viewport is centred on the
      player as far as the world allows. */
  method UpdateCamera()
    requires player != null
    modifies this`camera
    ensures camera == old(camera).(x := CameraAxis(player.body.x, camera.width, worldWidth),
                                   y := CameraAxis(player.body.y, camera.height, worldHeight))
  {
    var targetX := player.body.x - camera.width / 2.0;
    var targetY := player.body.y - camera.height / 2.0;
    camera := camera.(x := Max(0.0, Min(targetX, worldWidth - camera.width)));
    camera := camera.(y := Max(0.0, Min(targetY, worldHeight - camera.height)));
  }

  /** gameOver() (js/Game.js:582-590), without its screens. */
  method GameOver()
    modifies this`gameState
    ensures gameState == GameState.GameOver
  {
    gameState := GameState.GameOver;
  }

  /** resetGame() (js/Game.js:592-611), without its screens: back to the
      menu with empty rosters, wave 1 and no hero chosen. */
  method ResetGame()
    modifies this`player, this`enemies, this`zombies, this`bullets, this`particles, this`wave, this`waveTimer,
      this`selectedHero, this`gameState
    ensures player == null && enemies == [] && zombies == [] && bullets == [] && particles == []
    ensures wave == 1 && waveTimer == 0.0 && selectedHero == None && gameState == Menu
  {
    player := null;
    enemies, zombies, bullets, particles := [], [], [], [];
    wave, waveTimer := 1, 0.0;
    selectedHero := None;
    gameState := Menu;
  }
}

/** The debris createDeathExplosion leaves: sparks for everyone, and blood
    too for a zombie. */
function DebrisCount(team: Team): (n: nat)
  ensures n == 12 || n == 20
  ensures n == 20 <==> team == ZombieTeam
{
  if team == ZombieTeam then 20 else 12
}

/** One axis of updateCamera (js/Game.js:377-381): the viewport is centred
    on the position, but never shows anything outside the world. */
function CameraAxis(pos: real, view: real, world: real): (c: real)
  ensures 0.0 <= c
  ensures view <= world ==> c + view <= world
  ensures 0.0 <= pos - view / 2.0 <= world - view ==> c == pos - view / 2.0
  ensures 0.0 <= view <= world && 0.0 <= pos <= world ==> c <= pos <= c + view
{
  Clamp(pos - view / 2.0, 0.0, world - view)
}

/** The frame-time cap of gameLoop (js/Game.js:307): a frame never counts
    for more than 100 ms, and a shorter one counts in full. */
function ClampDelta(dt: real): (r: real)
  ensures r <= 100.0 && r <= dt
  ensures r == dt || r == 100.0
{
  if dt > 100.0 then 100.0 else dt
}

/** A stall never fast-forwards the world: a run of frames advances the
    game clock by at most 100 ms per frame, and by the real elapsed time
    when no frame was longer than that. */
lemma {:induction false} ClampedRunBounded(dts: seq<real>)
  ensures Sum(ClampAll(dts)) <= 100.0 * |dts| as real
  ensures Sum(ClampAll(dts)) <= Sum(dts)
  ensures (forall i :: 0 <= i < |dts| ==> dts[i] <= 100.0) ==> Sum(ClampAll(dts)) == Sum(dts)
  decreases |dts|
{
  if dts != [] {
    ClampedRunBounded(dts[1..]);
    assert ClampAll(dts)[1..] == ClampAll(dts[1..]);
  }
}

/** The frame times a run of frames feeds to update. */
function ClampAll(dts: seq<real>): (r: seq<real>)
  ensures |r| == |dts| && forall i :: 0 <= i < |dts| ==> r[i] == ClampDelta(dts[i])
{
  seq(|dts|, i requires 0 <= i < |dts| => ClampDelta(dts[i]))
}

/** The score bonus for reaching wave `wave` (js/Game.js:363): at least a
    thousand, and a quarter thousand more for every wave further on. */
function WaveBonus(wave: nat): (b: nat)
  ensures b >= 1000
  ensures wave > 0 ==> b == WaveBonus(wave - 1) + 250
{
  1000 + wave * 250
}

/** The between-wave heal (js/Game.js:367): twenty points, but never above
    the maximum. */
function Heal(health: int, maxHealth: int): (r: int)
  ensures r <= maxHealth
  ensures health <= maxHealth ==> health <= r
  ensures r <= health + 20
  ensures r == health + 20 || r == maxHealth
{
  MinInt(maxHealth, health + 20)
}

/** The inter-wave timer after one frame, and whether the next wave is due. */
datatype WaveClock = WaveClock(timer: real, advance: bool)

/** One frame of the wave clock (js/Game.js:356-373): the timer runs only
    while the field is clear of living soldiers and zombies and is zeroed
    otherwise; when it reaches the delay the next wave is due and the timer
    starts again from zero. */
function WaveTick(cleared: bool, timer: real, dt: real, delay: real): (c: WaveClock)
  ensures c.advance <==> cleared && timer + dt >= delay
  ensures c.advance ==> c.timer == 0.0
  ensures !c.advance ==> c.timer == (if cleared then timer + dt else 0.0)
{
  if !cleared then WaveClock(0.0, false)
  else if timer + dt >= delay then WaveClock(0.0, true)
  else WaveClock(timer + dt, false)
}

/** The wave clock over a run of frames: the final timer and how many
    waves came. */
function WaveRun(cleared: seq<bool>, dts: seq<real>, timer: real, delay: real): (r: (real, nat))
  requires |cleared| == |dts|
  decreases |dts|
{
  if dts == [] then (timer, 0)
  else
    var c := WaveTick(cleared[0], timer, dts[0], delay);
    var rest := WaveRun(cleared[1..], dts[1..], c.timer, delay);
    (rest.0, rest.1 + if c.advance then 1 else 0)
}

/** Waves are paced by the delay: over any run of frames the timer stays
    in [0, delay), and every wave that came cost a full delay of frame
    time. */
lemma {:induction false} WavesArePaced(cleared: seq<bool>, dts: seq<real>, timer: real, delay: real)
  requires |cleared| == |dts|
  requires 0.0 <= timer < delay
  requires forall i :: 0 <= i < |dts| ==> dts[i] >= 0.0
  ensures var r := WaveRun(cleared, dts, timer, delay);
    0.0 <= r.0 < delay && delay * r.1 as real + r.0 <= timer + Sum(dts)
  decreases |dts|
{
  if dts != [] {
    var c := WaveTick(cleared[0], timer, dts[0], delay);
    WavesArePaced(cleared[1..], dts[1..], c.timer, delay);
    var rest := WaveRun(cleared[1..], dts[1..], c.timer, delay);
    if c.advance {
      assert delay * (rest.1 + 1) as real == delay * rest.1 as real + delay;
    }
  }
}

/** Array.prototype.filter with the verdicts taken beforehand: the entries
    whose verdict is true, in order. */
function Filter<T>(s: seq<T>, keep: seq<bool>): (r: seq<T>)
  requires |keep| == |s|
  ensures |r| <= |s|
  decreases |s|
{
  if s == [] then []
  else
    var init := Filter(s[..|s| - 1], keep[..|s| - 1]);
    if keep[|s| - 1] then init + [s[|s| - 1]] else init
}

/** The filter keeps exactly the entries with a true verdict. */
lemma {:induction false} FilterKeepsExactly<T>(s: seq<T>, keep: seq<bool>)
  requires |keep| == |s|
  ensures forall x :: x in Filter(s, keep) <==> exists i :: 0 <= i < |s| && keep[i] && s[i] == x
  decreases |s|
{
  if s != [] {
    FilterKeepsExactly(s[..|s| - 1], keep[..|s| - 1]);
  }
}

/** The soldiers the filter of update keeps: the living, and the dead whose
    death animation is still playing. */
function EnemyMask(es: seq<Enemy>): (m: seq<bool>)
  reads es
  ensures |m| == |es|
  ensures forall i :: 0 <= i < |es| ==> (m[i] <==> es[i].body.alive || !es[i].body.animationManager.IsFinished())
{
  seq(|es|, i reads es requires 0 <= i < |es| => es[i].body.alive || !es[i].body.animationManager.IsFinished())
}

/** The zombies the filter of update keeps. */
function ZombieMask(zs: seq<Zombie>): (m: seq<bool>)
  reads zs
  ensures |m| == |zs|
  ensures forall i :: 0 <= i < |zs| ==> (m[i] <==> zs[i].body.alive || !zs[i].body.animationManager.IsFinished())
{
  seq(|zs|, i reads zs requires 0 <= i < |zs| => zs[i].body.alive || !zs[i].body.animationManager.IsFinished())
}

/** The bullets the filter of update keeps: the alive ones. */
function BulletMask(bs: seq<Bullet>): (m: seq<bool>)
  reads bs
  ensures |m| == |bs|
  ensures forall i :: 0 <= i < |bs| ==> (m[i] <==> bs[i].alive)
{
  seq(|bs|, i reads bs requires 0 <= i < |bs| => bs[i].alive)
}

/** The particles the filter of update keeps: the alive ones. */
function ParticleMask(ps: seq<Particle>): (m: seq<bool>)
  reads ps
  ensures |m| == |ps|
  ensures forall i :: 0 <= i < |ps| ==> (m[i] <==> ps[i].alive)
{
  seq(|ps|, i reads ps requires 0 <= i < |ps| => ps[i].alive)
}

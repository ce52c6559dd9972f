// Sprite animations (js/Animation.js). Every animation and every manager is
// owned by exactly one entity, and play() resets whatever it switches to, so
// both are modelled as values: an update returns the new value and the owner
// stores it.

/** One sprite sequence stepped by a frame timer (js/Animation.js:1-45). */
datatype Animation = Animation(
  frames: seq<Image>,
  frameRate: real,
  loop: bool,
  currentFrame: int,
  frameDuration: real,
  frameTimer: real,
  finished: bool)
{
  /** The frame index stays on a frame, and only a one-shot animation ever
      reports that it has finished, held on its last frame. */
  predicate Valid()
  {
    (|frames| > 0 ==> 0 <= currentFrame < |frames|) &&
    (finished ==> !loop && currentFrame == |frames| - 1)
  }

  /** update(deltaTime) (js/Animation.js:12-30). */
  function Update(dt: real): (r: Animation)
    ensures r.frames == frames && r.frameRate == frameRate && r.loop == loop
    ensures r.frameDuration == frameDuration
    // a finished one-shot animation is frozen
    ensures finished && !loop ==> r == this
    // below one frame duration the timer only accumulates
    ensures !(finished && !loop) && frameTimer + dt < frameDuration ==>
      r == this.(frameTimer := frameTimer + dt)
    // reaching a frame duration restarts the timer and steps at most one frame,
    // wrapping a loop to the first frame and holding a one-shot on the last
    ensures !(finished && !loop) && frameTimer + dt >= frameDuration ==>
      r.frameTimer == 0.0 &&
      (currentFrame + 1 < |frames| ==> r.currentFrame == currentFrame + 1 && r.finished == finished) &&
      (currentFrame + 1 >= |frames| && loop ==> r.currentFrame == 0 && r.finished == finished) &&
      (currentFrame + 1 >= |frames| && !loop ==> r.currentFrame == |frames| - 1 && r.finished)
    ensures Valid() ==> r.Valid()
    ensures finished ==> r.finished
    ensures loop ==> r.finished == finished
  {
    if finished && !loop then this
    else
      var timer := frameTimer + dt;
      if timer >= frameDuration then
        var next := currentFrame + 1;
        if next >= |frames| then
          if loop then this.(frameTimer := 0.0, currentFrame := 0)
          else this.(frameTimer := 0.0, currentFrame := |frames| - 1, finished := true)
        else this.(frameTimer := 0.0, currentFrame := next)
      else this.(frameTimer := timer)
  }

  /** getCurrentFrame() (js/Animation.js:32-34); an index off the frame list
      reads JavaScript's undefined, modelled as None. */
  function GetCurrentFrame(): (r: Option<Image>)
    ensures Valid() && |frames| > 0 ==> r == Some(frames[currentFrame])
    ensures |frames| == 0 ==> r == None
  {
    if 0 <= currentFrame < |frames| then Some(frames[currentFrame]) else None
  }

  /** reset() (js/Animation.js:36-40): back to the first frame, unfinished. */
  function Reset(): (r: Animation)
    ensures r.Valid()
    ensures r.frames == frames && r.frameRate == frameRate && r.loop == loop
    ensures r.frameDuration == frameDuration
    ensures r.currentFrame == 0 && r.frameTimer == 0.0 && !r.finished
    ensures r.GetCurrentFrame() == if |frames| > 0 then Some(frames[0]) else None
  {
    this.(currentFrame := 0, frameTimer := 0.0, finished := false)
  }
}

/** new Animation(frames, frameRate = 10, loop = true) (js/Animation.js:2-10). */
function NewAnimation(frames: seq<Image>, frameRate: real := 10.0, loop: bool := true): (a: Animation)
  requires frameRate != 0.0
  ensures a.Valid()
  ensures a.frames == frames && a.loop == loop && a.frameRate == frameRate
  ensures a.frameDuration * frameRate == 1000.0
  ensures a.currentFrame == 0 && a.frameTimer == 0.0 && !a.finished
{
  Animation(frames, frameRate, loop, 0, 1000.0 / frameRate, 0.0, false)
}

/** The animation after one update per entry of dts. */
function Run(a: Animation, dts: seq<real>): Animation
  decreases |dts|
{
  if dts == [] then a else Run(a.Update(dts[0]), dts[1..])
}

/** A looping animation never reports that it has finished, however it is
    stepped. */
lemma {:induction false} LoopingNeverFinishes(a: Animation, dts: seq<real>)
  requires a.loop && !a.finished
  ensures !Run(a, dts).finished
  ensures Run(a, dts).Valid() <== a.Valid()
  decreases |dts|
{
  if dts != [] {
    LoopingNeverFinishes(a.Update(dts[0]), dts[1..]);
  }
}

/** A finished one-shot animation stays exactly as it is. */
lemma {:induction false} FinishedIsFrozen(a: Animation, dts: seq<real>)
  requires a.finished && !a.loop
  ensures Run(a, dts) == a
  decreases |dts|
{
  if dts != [] {
    FinishedIsFrozen(a.Update(dts[0]), dts[1..]);
  }
}

/** The animation after n updates of dt each. */
function Steps(a: Animation, dt: real, n: nat): Animation
  decreases n
{
  if n == 0 then a else Steps(a.Update(dt), dt, n - 1)
}

/** A one-shot animation whose updates each last at least one frame
    duration shows every remaining frame once and then reports that it has
    finished, held on its last frame. */
lemma {:induction false} OneShotFinishes(a: Animation, dt: real)
  requires a.Valid() && !a.loop && |a.frames| > 0
  requires 0.0 <= a.frameTimer && a.frameDuration <= dt
  ensures Steps(a, dt, |a.frames| - a.currentFrame).finished
  ensures Steps(a, dt, |a.frames| - a.currentFrame).currentFrame == |a.frames| - 1
  decreases |a.frames| - a.currentFrame
{
  var b := a.Update(dt);
  if a.finished {
    assert b == a;
    OneShotSteps(a, dt, |a.frames| - a.currentFrame);
  } else if a.currentFrame + 1 >= |a.frames| {
    assert b.finished && b.currentFrame == |a.frames| - 1;
  } else {
    assert b.currentFrame == a.currentFrame + 1 && b.frameTimer == 0.0;
    OneShotFinishes(b, dt);
  }
}

/** Helper: steps of a finished one-shot animation change nothing. */
lemma {:induction false} OneShotSteps(a: Animation, dt: real, n: nat)
  requires a.finished && !a.loop
  ensures Steps(a, dt, n) == a
  decreases n
{
  if n > 0 {
    OneShotSteps(a.Update(dt), dt, n - 1);
  }
}

/** The per-entity animation registry and the animation now playing
    (js/Animation.js:47-89). */
datatype AnimationManager = AnimationManager(
  animations: map<string, Animation>,
  current: Option<Animation>,
  currentName: string,
  finished: bool)
{
  /** Every registered animation, and the one playing, is Valid. */
  predicate Valid()
  {
    (forall name <- animations :: animations[name].Valid()) &&
    (current.Some? ==> current.value.Valid())
  }

  /** addAnimation(name, animation) (js/Animation.js:55-57). */
  function AddAnimation(name: string, a: Animation): (r: AnimationManager)
    ensures name in r.animations && r.animations[name] == a
    ensures forall other <- animations :: other != name ==> other in r.animations && r.animations[other] == animations[other]
    ensures r.animations.Keys == animations.Keys + {name}
    ensures r.current == current && r.currentName == currentName && r.finished == finished
    ensures Valid() && a.Valid() ==> r.Valid()
  {
    this.(animations := animations[name := a])
  }

  /** play(name, force = false) (js/Animation.js:59-67): switching to a
      registered animation restarts it; replaying the current name without
      force, or naming an unregistered animation, changes nothing. */
  function Play(name: string, force: bool := false): (r: AnimationManager)
    ensures (currentName == name && !force) || name !in animations ==> r == this
    ensures !(currentName == name && !force) && name in animations ==>
      r.currentName == name && r.current == Some(animations[name].Reset()) &&
      r.animations == animations && r.finished == finished
    ensures r.current.Some? ==> r.current.value.currentFrame == 0 || r.current == current
    ensures Valid() ==> r.Valid()
  {
    if currentName == name && !force then this
    else if name in animations then
      this.(current := Some(animations[name].Reset()), currentName := name)
    else this
  }

  /** update(deltaTime) (js/Animation.js:69-73): only the playing animation
      advances. */
  function Update(dt: real): (r: AnimationManager)
    ensures r.animations == animations && r.currentName == currentName && r.finished == finished
    ensures current.None? ==> r.current.None?
    ensures current.Some? ==> r.current == Some(current.value.Update(dt))
    ensures Valid() ==> r.Valid()
  {
    match current
    case None => this
    case Some(a) => this.(current := Some(a.Update(dt)))
  }

  /** getCurrentFrame() (js/Animation.js:75-80): null without a playing
      animation or with an empty one. */
  function GetCurrentFrame(): (r: Option<Image>)
    ensures current.None? ==> r.None?
    ensures current.Some? && |current.value.frames| == 0 ==> r.None?
    ensures Valid() && current.Some? && |current.value.frames| > 0 ==>
      r == Some(current.value.frames[current.value.currentFrame])
  {
    if current.Some? && |current.value.frames| > 0 then current.value.GetCurrentFrame() else None
  }

  /** isFinished() (js/Animation.js:82-88): the manager's own flag, else the
      playing animation's. */
  predicate IsFinished()
  {
    finished || (current.Some? && current.value.finished)
  }

  /** The death-timer callback's `animationManager.finished = true`
      (js/Enemy.js:268-270, js/Zombie.js:216-218). */
  function ForceFinish(): (r: AnimationManager)
    ensures r.IsFinished()
    ensures r.animations == animations && r.current == current && r.currentName == currentName
  {
    this.(finished := true)
  }
}

/** new AnimationManager() (js/Animation.js:48-53). */
function NewAnimationManager(): (m: AnimationManager)
  ensures m.Valid() && !m.IsFinished()
  ensures m.animations == map[] && m.current.None? && m.currentName == ""
{
  AnimationManager(map[], None, "", false)
}

/** Playing the same name twice without force is playing it once. */
lemma PlayIdempotent(m: AnimationManager, name: string)
  ensures m.Play(name).Play(name) == m.Play(name)
{
}

/** Once a Valid manager reports finished, updates never take that back. */
lemma FinishedStaysFinished(m: AnimationManager, dt: real)
  requires m.Valid() && m.IsFinished()
  ensures m.Update(dt).IsFinished()
{
}

/** After the manager's own flag is set, only that flag matters: no play or
    update clears it. */
lemma ForcedFinishIsPermanent(m: AnimationManager, name: string, force: bool, dt: real)
  requires m.finished
  ensures m.Play(name, force).IsFinished() && m.Update(dt).IsFinished()
{
}

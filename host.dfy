// What the game core takes from its host page: the browser's Math functions,
// the Math.random stream and the sprite lookup of the asset loader. The model
// leaves the trigonometric functions uninterpreted and makes the random
// stream a caller-supplied sequence, so that every result is a function of
// the inputs it actually consumed.

const PI: real := 3.141592653589793

/** Math.cos, Math.sin and Math.atan2, supplied by the caller. */
datatype MathLib = MathLib(cos: real -> real, sin: real -> real, atan2: (real, real) -> real)

/** A value Math.random() can return. */
type Unit = r: real | 0.0 <= r < 1.0

/** The Math.random stream: the n-th call returns draws(n). */
class Random {
  const draws: nat -> Unit
  var calls: nat

  constructor (draws: nat -> Unit)
    ensures this.draws == draws && calls == 0
  {
    this.draws := draws;
    calls := 0;
  }

  method Next() returns (r: Unit)
    modifies this
    ensures r == draws(old(calls)) && calls == old(calls) + 1
  {
    r := draws(calls);
    calls := calls + 1;
  }
}

/** A loaded sprite image; only its identity matters to the core. */
datatype Image = Image(id: nat)

/** assetLoader.get(key): the image registered under key, if any. */
datatype Assets = Assets(get: string -> Option<Image>)

/** A decimal digit as a character. */
function Digit(d: nat): (c: char)
  requires d < 10
  ensures '0' <= c <= '9'
{
  (d + '0' as int) as char
}

/** The decimal text of n, as a template literal `${n}` renders it. */
function NatToString(n: nat): (s: string)
  ensures 1 <= |s|
  ensures forall c <- s :: '0' <= c <= '9'
  ensures n < 10 ==> s == [Digit(n)]
{
  if n < 10 then [Digit(n)] else NatToString(n / 10) + [Digit(n % 10)]
}

/** The images found under prefix + i for i = first .. first + count - 1, in
    order, skipping keys the loader does not know (the frame-collecting loops
    of the entity and particle constructors). */
function FoundFrames(assets: Assets, prefix: string, first: nat, count: nat): (fs: seq<Image>)
  ensures |fs| <= count
{
  if count == 0 then []
  else
    var fs := FoundFrames(assets, prefix, first, count - 1);
    match assets.get(prefix + NatToString(first + count - 1))
    case Some(img) => fs + [img]
    case None => fs
}

/** The frame-collecting loop itself, proved to gather exactly FoundFrames. */
method CollectFrames(assets: Assets, prefix: string, first: nat, count: nat) returns (frames: seq<Image>)
  ensures frames == FoundFrames(assets, prefix, first, count)
  ensures |frames| <= count
{
  frames := [];
  var i := 0;
  while i < count
    invariant i <= count
    invariant frames == FoundFrames(assets, prefix, first, i)
  {
    var img := assets.get(prefix + NatToString(first + i));
    if img.Some? {
      frames := frames + [img.value];
    }
    i := i + 1;
  }
}

/** When every key is known, every frame is found, in key order. */
lemma {:induction false} AllFramesFound(assets: Assets, prefix: string, first: nat, count: nat)
  requires forall i :: first <= i < first + count ==> assets.get(prefix + NatToString(i)).Some?
  ensures |FoundFrames(assets, prefix, first, count)| == count
  ensures forall i :: 0 <= i < count ==>
    FoundFrames(assets, prefix, first, count)[i] == assets.get(prefix + NatToString(first + i)).value
{
  if count > 0 {
    AllFramesFound(assets, prefix, first, count - 1);
  }
}

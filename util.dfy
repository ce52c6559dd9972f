// Small building blocks shared by the whole model: optional values, the
// Math.max/Math.min idioms of the game code, and removal of one roster entry
// by identity (Array.prototype.indexOf followed by splice).

datatype Option<T> = None | Some(value: T)

function Max(a: real, b: real): real { if a >= b then a else b }

function Min(a: real, b: real): real { if a <= b then a else b }

function MaxInt(a: int, b: int): int { if a >= b then a else b }

function MinInt(a: int, b: int): int { if a <= b then a else b }

function Abs(a: real): real { if a < 0.0 then -a else a }

/** Math.max(lo, Math.min(v, hi)): v pulled into [lo, hi]; lo wins when the
    interval is empty. */
function Clamp(v: real, lo: real, hi: real): (r: real)
  ensures lo <= r
  ensures lo <= hi ==> r <= hi
  ensures lo <= v <= hi ==> r == v
  ensures v < lo ==> r == lo
  ensures lo <= hi < v ==> r == hi
{
  Max(lo, Min(v, hi))
}

/** `const i = s.indexOf(x); if (i > -1) s.splice(i, 1);`: the first
    occurrence of x leaves the roster, everything else keeps its order. */
function Without<T(==)>(s: seq<T>, x: T): (r: seq<T>)
  ensures x !in s ==> r == s
  ensures x in s ==> |r| == |s| - 1
  ensures forall y <- r :: y in s
  ensures forall y <- s :: y != x ==> y in r
{
  if s == [] then []
  else if s[0] == x then
    assert s == [s[0]] + s[1..];
    s[1..]
  else
    var r := [s[0]] + Without(s[1..], x);
    assert s == [s[0]] + s[1..];
    assert forall y <- r :: y in s by {
      forall y <- r ensures y in s {
        if y != s[0] { assert y in Without(s[1..], x); }
      }
    }
    r
}

/** The splice removes exactly one occurrence of x, when there is one:
    as a multiset, the roster loses x and nothing else. */
lemma {:induction false} WithoutMultiset<T>(s: seq<T>, x: T)
  ensures multiset(Without(s, x)) == multiset(s) - multiset{x}
  decreases |s|
{
  if s != [] {
    assert s == [s[0]] + s[1..];
    if s[0] != x {
      WithoutMultiset(s[1..], x);
    }
  }
}

/** String.prototype.startsWith. */
predicate StartsWith(s: string, prefix: string)
{
  |prefix| <= |s| && s[..|prefix|] == prefix
}

/** The total of a run of frame times. */
function Sum(dts: seq<real>): real
  decreases |dts|
{
  if dts == [] then 0.0 else dts[0] + Sum(dts[1..])
}

/** Frame times that are never negative add up to a non-negative total. */
lemma {:induction false} SumNonNegative(dts: seq<real>)
  requires forall i :: 0 <= i < |dts| ==> dts[i] >= 0.0
  ensures Sum(dts) >= 0.0
  decreases |dts|
{
  if dts != [] {
    SumNonNegative(dts[1..]);
  }
}

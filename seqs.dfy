/** Sequence helpers shared by the page models: JavaScript's `slice(-n)` and `reverse()`. */
module Seqs {

  /** `s.slice(-n)` for a positive `n`: the last `n` elements of `s`, or all of `s` when it
      is shorter. (`slice(-0)` would be all of `s`, so `n` is kept above zero.) */
  function LastN<T>(s: seq<T>, n: nat): (r: seq<T>)
    requires n > 0
    ensures |r| == if |s| <= n then |s| else n
    ensures r == s[|s| - |r|..]
  {
    if |s| <= n then s else s[|s| - n..]
  }

  /** `s.reverse()` on a copy: the elements of `s`, last first. */
  function Reverse<T>(s: seq<T>): (r: seq<T>)
    ensures |r| == |s|
    ensures forall i :: 0 <= i < |s| ==> r[i] == s[|s| - 1 - i]
  {
    if s == [] then [] else Reverse(s[1..]) + [s[0]]
  }

  lemma ConcatAssociative<T>(x: seq<T>, y: seq<T>, z: seq<T>)
    ensures x + (y + z) == (x + y) + z
  {
  }

  /** A slice that lies inside the left operand of a concatenation. */
  lemma SliceOfLeft<T>(x: seq<T>, y: seq<T>, lo: int, hi: int)
    requires 0 <= lo <= hi <= |x|
    ensures (x + y)[lo..hi] == x[lo..hi]
  {
  }

  /** A slice that lies inside the right operand of a concatenation. */
  lemma SliceOfRight<T>(x: seq<T>, y: seq<T>, lo: int, hi: int)
    requires |x| <= lo <= hi <= |x| + |y|
    ensures (x + y)[lo..hi] == y[lo - |x|..hi - |x|]
  {
  }

  /** A block inside the second of four concatenated parts sits after the whole first part. */
  lemma SliceOfSecond<T>(w: seq<T>, x: seq<T>, y: seq<T>, z: seq<T>, lo: int, hi: int)
    requires 0 <= lo <= hi <= |x|
    ensures (w + x + y + z)[|w| + lo..|w| + hi] == x[lo..hi]
  {
    SliceOfLeft(w + x + y, z, |w| + lo, |w| + hi);
    SliceOfLeft(w + x, y, |w| + lo, |w| + hi);
    SliceOfRight(w, x, |w| + lo, |w| + hi);
  }

  /** The same, for a sequence known to be made of those four parts. */
  lemma BlockOfSecond<T>(e: seq<T>, w: seq<T>, x: seq<T>, y: seq<T>, z: seq<T>, lo: int, hi: int, block: seq<T>)
    requires e == w + x + y + z
    requires 0 <= lo <= hi <= |x| && x[lo..hi] == block
    ensures |w| + hi <= |e| && e[|w| + lo..|w| + hi] == block
  {
    SliceOfSecond(w, x, y, z, lo, hi);
  }

  /** The last two of four concatenated parts end the sequence. */
  lemma EndsWith<T>(e: seq<T>, w: seq<T>, x: seq<T>, y: seq<T>, z: seq<T>)
    requires e == w + x + y + z
    ensures |e| >= |y| + |z|
    ensures e[|e| - |z| - |y|..|e| - |z|] == y
    ensures e[|e| - |z|..] == z
  {
    SliceOfLeft(w + x + y, z, |e| - |z| - |y|, |e| - |z|);
    SliceOfRight(w + x, y, |e| - |z| - |y|, |e| - |z|);
    SliceOfRight(w + x + y, z, |e| - |z|, |e|);
  }
}

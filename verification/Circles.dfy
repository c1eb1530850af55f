/** The last elements of a sequence, and positions in a circular buffer. */
module Circles {

  function Last<T>(s: seq<T>, n: nat): (r: seq<T>)
    ensures |r| == if |s| < n then |s| else n
  {
    if |s| <= n then s else s[|s| - n..]
  }

  /** The next place in a circle. */
  function Next(i: int, n: int): (r: int)
    requires 0 <= i < n
    ensures r == if i + 1 == n then 0 else i + 1
  {
    (i + 1) % n
  }
}

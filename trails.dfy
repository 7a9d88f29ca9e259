/** The ball's trail: a bounded history of its most recent positions, oldest first. */
module Trails {
  import opened Geometry

  /** The last n entries of t, or all of t when it holds no more than n. */
  function LastN<T>(t: seq<T>, n: nat): seq<T>
  {
    if |t| <= n then t else t[|t| - n..]
  }

  /** The trail reached from s by adding the points of ps one at a time, as the ball step does once per frame. */
  function AddAll<T>(s: seq<T>, ps: seq<T>, n: nat): seq<T>
  {
    if ps == [] then s else LastN(AddAll(s, ps[..|ps| - 1], n) + [ps[|ps| - 1]], n)
  }

  /**
   * One addition to a trail that is within its bound: the bound still holds,
   * the new point is the newest entry, a trail with room keeps every point,
   * and a full trail loses exactly its oldest point, the rest keeping their order.
   */
  lemma AddKeepsRecent<T>(s: seq<T>, p: T, n: nat)
    requires |s| <= n
    ensures |LastN(s + [p], n)| <= n
    ensures 0 < n ==> LastN(s + [p], n)[|LastN(s + [p], n)| - 1] == p
    ensures |s| < n ==> LastN(s + [p], n) == s + [p]
    ensures 0 < |s| == n ==> LastN(s + [p], n) == s[1..] + [p]
  {
    if 0 < |s| == n {
      assert (s + [p])[1..] == s[1..] + [p];
    }
  }

  /** Windowing before an addition changes nothing: the window of a window is the window of the whole history. */
  lemma WindowOfWindow<T>(t: seq<T>, p: T, n: nat)
    ensures LastN(LastN(t, n) + [p], n) == LastN(t + [p], n)
  {
    if |t| > n {
      var w := t[|t| - n..];
      assert |w + [p]| == n + 1;
      assert (w + [p])[1..] == (t + [p])[|t| + 1 - n..];
    }
  }

  /** After any number of additions the trail holds exactly the n most recent positions of the whole history. */
  lemma {:induction false} AddAllIsRecentWindow<T>(s: seq<T>, ps: seq<T>, n: nat)
    requires |s| <= n
    ensures AddAll(s, ps, n) == LastN(s + ps, n)
  {
    if ps == [] {
      assert s + ps == s;
    } else {
      var init, last := ps[..|ps| - 1], ps[|ps| - 1];
      AddAllIsRecentWindow(s, init, n);
      WindowOfWindow(s + init, last, n);
      assert s + init + [last] == s + ps;
    }
  }

  class Trail {
    var positions: seq<Point>
    const maxLength: nat

    /** A trail never holds more than maxLength positions. */
    ghost predicate Valid()
      reads this
    {
      |positions| <= maxLength
    }

    constructor (maxLength: nat)
      ensures Valid() && this.maxLength == maxLength && positions == []
    {
      this.positions := [];
      this.maxLength := maxLength;
    }

    /** Appends (x, y) and, when that overflows the bound, drops the oldest point. */
    method AddPosition(x: real, y: real)
      requires Valid()
      modifies this
      ensures Valid()
      ensures positions == LastN(old(positions) + [Point(x, y)], maxLength)
    {
      positions := positions + [Point(x, y)];
      if |positions| > maxLength {
        positions := positions[1..];
      }
    }
  }
}

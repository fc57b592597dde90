/**
 * The bounded history both processes keep: append at the end, and once the
 * length goes over the capacity drop the oldest entry (`list.append` followed
 * by `pop(0)`). The game keeps its predictor history this way (capacity 900),
 * the dashboard its in-memory log (capacity 2000).
 */
module Fifo {

  function BoundedAppend<T>(s: seq<T>, x: T, cap: nat): (r: seq<T>)
    requires cap > 0
    ensures |r| == if |s| < cap then |s| + 1 else |s|
    ensures r == (s + [x])[|s| + 1 - |r|..]
    ensures r[|r| - 1] == x
    ensures |s| <= cap ==> |r| <= cap
  {
    var grown := s + [x];
    if |grown| > cap then grown[1..] else grown
  }

  /** Every entry of the new history is the new entry or was already there. */
  lemma BoundedAppendFrom<T>(s: seq<T>, x: T, cap: nat, y: T)
    requires cap > 0 && y in BoundedAppend(s, x, cap)
    ensures y in s || y == x
  {
    var r := BoundedAppend(s, x, cap);
    var i :| 0 <= i < |r| && r[i] == y;
    assert y == (s + [x])[|s| + 1 - |r| + i];
  }
}

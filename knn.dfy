/**
 * `TinyKNN` of the game process: an online k-nearest-neighbour predictor over
 * three-component feature vectors with integer labels (lanes).
 *
 * `predict` sorts the training examples by distance with Python's stable
 * sort, lets the first `min(k, n)` vote, and returns the label with the most
 * votes, the smallest label among equally voted ones. Here the stable sort
 * is described by ranks: an example's position in the sorted list is the
 * number of examples that are strictly closer or equally close and earlier
 * in the history, so the first `min(k, n)` after sorting are exactly those of
 * rank below `min(k, n)`. Squared distances stand for the distances, whose
 * order they share.
 */
module Knn {
  import opened Wrappers

  datatype Features = Features(lane: real, gap: real, speed: real)

  /** Squared Euclidean distance. */
  function SqDist(a: Features, b: Features): real {
    (a.lane - b.lane) * (a.lane - b.lane)
    + (a.gap - b.gap) * (a.gap - b.gap)
    + (a.speed - b.speed) * (a.speed - b.speed)
  }

  /** The distance from every example to the query, in history order. */
  function Distances(xs: seq<Features>, f: Features): (d: seq<real>)
    ensures |d| == |xs|
    ensures forall i :: 0 <= i < |xs| ==> d[i] == SqDist(xs[i], f)
  {
    seq(|xs|, i requires 0 <= i < |xs| => SqDist(xs[i], f))
  }

  /** In the stable sort by distance, entry `i` comes before entry `j`. */
  predicate Precedes(d: seq<real>, i: int, j: int)
    requires 0 <= i < |d| && 0 <= j < |d|
  {
    d[i] < d[j] || (d[i] == d[j] && i < j)
  }

  /** How many of the first `n` entries come before entry `i`. */
  function RankBelow(d: seq<real>, i: int, n: int): (r: nat)
    requires 0 <= i < |d| && 0 <= n <= |d|
    ensures r <= n
  {
    if n == 0 then 0 else RankBelow(d, i, n - 1) + (if Precedes(d, n - 1, i) then 1 else 0)
  }

  /** Position of entry `i` in the stable sort by distance. */
  function Rank(d: seq<real>, i: int): nat
    requires 0 <= i < |d|
  {
    RankBelow(d, i, |d|)
  }

  /** Entry `i` is among the first `k` after the stable sort. */
  predicate IsNearest(d: seq<real>, k: int, i: int)
    requires 0 <= i < |d|
  {
    Rank(d, i) < k
  }

  /** Votes for `tag` cast by the nearest entries with index below `n`. */
  function VotesBelow(d: seq<real>, ys: seq<int>, k: int, tag: int, n: int): (v: nat)
    requires |ys| == |d| && 0 <= n <= |d|
    ensures v <= n
  {
    if n == 0 then 0
    else VotesBelow(d, ys, k, tag, n - 1) + (if IsNearest(d, k, n - 1) && ys[n - 1] == tag then 1 else 0)
  }

  lemma {:induction false} RankMonotone(d: seq<real>, i: int, j: int, n: int)
    requires 0 <= i < |d| && 0 <= j < |d| && 0 <= n <= |d|
    requires Precedes(d, i, j)
    ensures RankBelow(d, i, n) <= RankBelow(d, j, n)
    ensures i < n ==> RankBelow(d, i, n) < RankBelow(d, j, n)
  {
    if n > 0 {
      RankMonotone(d, i, j, n - 1);
    }
  }

  /**
   * Sorting never lets a farther example vote while leaving out a closer
   * one: the nearest set is closed under "strictly closer".
   */
  lemma CloserIsNearest(d: seq<real>, k: int, i: int, j: int)
    requires 0 <= i < |d| && 0 <= j < |d|
    requires IsNearest(d, k, j) && d[i] < d[j]
    ensures IsNearest(d, k, i)
  {
    RankMonotone(d, i, j, |d|);
  }

  lemma {:induction false} NoPredecessorsRankZero(d: seq<real>, m: int, n: int)
    requires 0 <= m < |d| && 0 <= n <= |d|
    requires forall j :: 0 <= j < n ==> !Precedes(d, j, m)
    ensures RankBelow(d, m, n) == 0
  {
    if n > 0 {
      NoPredecessorsRankZero(d, m, n - 1);
    }
  }

  /** A non-empty history has an entry that the sort puts first. */
  lemma FirstAfterSort(d: seq<real>) returns (m: int)
    requires |d| > 0
    ensures 0 <= m < |d| && Rank(d, m) == 0
  {
    m := 0;
    var i := 1;
    while i < |d|
      invariant 1 <= i <= |d| && 0 <= m < i
      invariant forall j :: 0 <= j < i ==> !Precedes(d, j, m)
    {
      if Precedes(d, i, m) {
        forall j | 0 <= j < i
          ensures !Precedes(d, j, i)
        {
          assert !Precedes(d, j, m);
        }
        m := i;
      }
      i := i + 1;
    }
    NoPredecessorsRankZero(d, m, |d|);
  }

  lemma {:induction false} VoteCounted(d: seq<real>, ys: seq<int>, k: int, j: int, n: int)
    requires |ys| == |d| && 0 <= j < n <= |d|
    requires IsNearest(d, k, j)
    ensures VotesBelow(d, ys, k, ys[j], n) >= 1
  {
    if j < n - 1 {
      VoteCounted(d, ys, k, j, n - 1);
    }
  }

  lemma {:induction false} VoteHasVoter(d: seq<real>, ys: seq<int>, k: int, tag: int, n: int)
    requires |ys| == |d| && 0 <= n <= |d|
    requires VotesBelow(d, ys, k, tag, n) >= 1
    ensures exists j :: 0 <= j < n && IsNearest(d, k, j) && ys[j] == tag
  {
    if !(IsNearest(d, k, n - 1) && ys[n - 1] == tag) {
      VoteHasVoter(d, ys, k, tag, n - 1);
    }
  }

  /** Rank of entry `i`, counted by one pass over the distances. */
  method RankOf(d: seq<real>, i: int) returns (r: nat)
    requires 0 <= i < |d|
    ensures r == Rank(d, i)
  {
    r := 0;
    var j := 0;
    while j < |d|
      invariant 0 <= j <= |d| && r == RankBelow(d, i, j)
    {
      if Precedes(d, j, i) {
        r := r + 1;
      }
      j := j + 1;
    }
  }

  /** The `dists` list of `predict`, without the square root. */
  method DistancesTo(xs: seq<Features>, f: Features) returns (dists: seq<real>)
    ensures dists == Distances(xs, f)
  {
    dists := [];
    var i := 0;
    while i < |xs|
      invariant 0 <= i <= |xs| && |dists| == i
      invariant forall j :: 0 <= j < i ==> dists[j] == SqDist(xs[j], f)
    {
      dists := dists + [SqDist(xs[i], f)];
      i := i + 1;
    }
  }

  /**
   * The `votes` dict of `predict`: one vote per entry among the first `k`
   * after sorting. The entries are visited in history order rather than in
   * sorted order, so `order` (the labels in the order they first got a vote)
   * may differ from the dict's insertion order; the winner does not depend
   * on it, since the most-voted smallest label is unique.
   */
  method TallyVotes(dists: seq<real>, ys: seq<int>, k: int) returns (votes: map<int, nat>, order: seq<int>)
    requires |ys| == |dists|
    ensures forall l :: l in votes ==> 1 <= votes[l] == VotesBelow(dists, ys, k, l, |dists|)
    ensures forall l :: l !in votes ==> VotesBelow(dists, ys, k, l, |dists|) == 0
    ensures forall l :: l in votes <==> l in order
  {
    votes, order := map[], [];
    var i := 0;
    while i < |dists|
      invariant 0 <= i <= |dists|
      invariant forall l :: l in votes ==> 1 <= votes[l] == VotesBelow(dists, ys, k, l, i)
      invariant forall l :: l !in votes ==> VotesBelow(dists, ys, k, l, i) == 0
      invariant forall l :: l in votes <==> l in order
    {
      var rank := RankOf(dists, i);
      if rank < k {
        var tag := ys[i];
        if tag in votes {
          votes := votes[tag := votes[tag] + 1];
        } else {
          votes, order := votes[tag := 1], order + [tag];
        }
      }
      i := i + 1;
    }
  }

  /**
   * `max(votes.items(), key=lambda x: (x[1], -x[0]))[0]`: the label with the
   * most votes, the smallest label among those with equally many.
   */
  method MostVoted(votes: map<int, nat>, order: seq<int>) returns (best: int)
    requires |order| > 0
    requires forall l :: l in votes <==> l in order
    ensures best in votes
    ensures forall l :: l in votes ==> votes[l] <= votes[best]
    ensures forall l :: l in votes && votes[l] == votes[best] ==> best <= l
  {
    best := order[0];
    var i := 1;
    while i < |order|
      invariant 1 <= i <= |order| && best in votes
      invariant forall j :: 0 <= j < i ==> order[j] in votes
      invariant forall j :: 0 <= j < i ==>
        votes[order[j]] < votes[best] || (votes[order[j]] == votes[best] && best <= order[j])
    {
      var l := order[i];
      if votes[l] > votes[best] || (votes[l] == votes[best] && l < best) {
        best := l;
      }
      i := i + 1;
    }
  }

  /** `min(k, len(dists))`: how many examples vote. */
  function Voters(k: nat, n: nat): nat {
    if k < n then k else n
  }

  /** Example `i` of the history `xs` is one of the voters for query `f`. */
  predicate IsVoter(xs: seq<Features>, k: nat, f: Features, i: int)
    requires 0 <= i < |xs|
  {
    IsNearest(Distances(xs, f), Voters(k, |xs|), i)
  }

  /** The number of votes `tag` receives for query `f`. */
  function Votes(xs: seq<Features>, ys: seq<int>, k: nat, f: Features, tag: int): nat
    requires |xs| == |ys|
  {
    VotesBelow(Distances(xs, f), ys, Voters(k, |xs|), tag, |xs|)
  }

  /**
   * What `predict` answers for query `f` on the history `xs`/`ys`: nothing
   * on an empty history; otherwise a label of one of the voters with the
   * most votes, the smallest such label on a tie.
   */
  ghost predicate IsPrediction(xs: seq<Features>, ys: seq<int>, k: nat, f: Features, pred: Option<int>)
    requires |xs| == |ys|
  {
    && (pred.None? <==> xs == [])
    && (pred.Some? ==> exists i :: 0 <= i < |xs| && IsVoter(xs, k, f, i) && ys[i] == pred.value)
    && (pred.Some? ==> forall l :: Votes(xs, ys, k, f, l) <= Votes(xs, ys, k, f, pred.value))
    && (pred.Some? ==> forall l :: Votes(xs, ys, k, f, l) == Votes(xs, ys, k, f, pred.value) ==> pred.value <= l)
  }

  /** The description above leaves no choice: at most one answer fits it. */
  lemma PredictionUnique(xs: seq<Features>, ys: seq<int>, k: nat, f: Features, p: Option<int>, q: Option<int>)
    requires |xs| == |ys|
    requires IsPrediction(xs, ys, k, f, p) && IsPrediction(xs, ys, k, f, q)
    ensures p == q
  {
    if p.Some? && q.Some? {
      assert Votes(xs, ys, k, f, p.value) == Votes(xs, ys, k, f, q.value);
      assert p.value <= q.value && q.value <= p.value;
    }
  }

  class TinyKnn {
    const k: nat
    var xs: seq<Features>
    var ys: seq<int>

    ghost predicate Valid()
      reads this
    {
      |xs| == |ys|
    }

    constructor (k: nat)
      ensures Valid() && this.k == k && xs == [] && ys == []
    {
      this.k := k;
      xs := [];
      ys := [];
    }

    /** `add_example`: the example goes to the end of the history. */
    method AddExample(features: Features, tag: int)
      requires Valid()
      modifies this
      ensures Valid()
      ensures xs == old(xs) + [features] && ys == old(ys) + [tag]
    {
      xs := xs + [features];
      ys := ys + [tag];
    }

    /** `X.pop(0); y.pop(0)`: the oldest example leaves the history. */
    method EvictOldest()
      requires Valid() && xs != []
      modifies this
      ensures Valid()
      ensures xs == old(xs)[1..] && ys == old(ys)[1..]
    {
      xs := xs[1..];
      ys := ys[1..];
    }

    /** `predict`. */
    method Predict(f: Features) returns (pred: Option<int>)
      requires Valid() && k > 0
      ensures IsPrediction(xs, ys, k, f, pred)
    {
      if xs == [] {
        return None;
      }
      var dists := DistancesTo(xs, f);
      var kk := if k < |xs| then k else |xs|;
      var votes, order := TallyVotes(dists, ys, kk);
      ghost var first := FirstAfterSort(dists);
      VoteCounted(dists, ys, kk, first, |xs|);
      assert ys[first] in order;
      var best := MostVoted(votes, order);
      VoteHasVoter(dists, ys, kk, best, |xs|);
      pred := Some(best);
    }
  }
}

/**
 * The pure decisions of the spawn block of `main()`: which lane pair to use,
 * which lane of it gets the next obstacle, the features the predictor sees,
 * and the difficulty ramp. The random draws of the game (`random.choice`,
 * `random.random() < 0.45`) are inputs here: `pick` stands for the draw of
 * `random.choice`, `adopt` for the outcome of the adoption test.
 */
module Scheduler {
  import opened Wrappers
  import opened Settings
  import opened Knn

  /** `random.choice(xs)`, the draw being `pick`. */
  function Choice(xs: seq<int>, pick: nat): (c: int)
    requires xs != []
    ensures c in xs
  {
    xs[pick % |xs|]
  }

  /** The two lanes of the pair `(first, first + 1)`, in order. */
  function PairLanes(first: int): seq<int> {
    [first, first + 1]
  }

  /** `[(i, i + 1) for i in range(LANES - 1)]`, each pair given by its first lane. */
  function Pairs(lanes: int): (ps: seq<int>)
    requires MIN_LANES <= lanes <= MAX_LANES
    ensures |ps| == lanes - 1
    ensures forall i :: 0 <= i < |ps| ==> ps[i] == i
  {
    seq(lanes - 1, i => i)
  }

  /** `random.choice(pairs)`: always a pair of two neighbouring lanes of the road. */
  function ChoosePair(lanes: int, pick: nat): (first: int)
    requires MIN_LANES <= lanes <= MAX_LANES
    ensures 0 <= first < lanes - 1
  {
    Choice(Pairs(lanes), pick)
  }

  /** `[l for l in xs if l != v]`. */
  function Others(xs: seq<int>, v: int): (r: seq<int>)
    ensures forall l :: l in r <==> l in xs && l != v
    ensures |r| <= |xs|
    ensures xs != [] && xs[0] != v ==> r != [] && r[0] == xs[0]
  {
    if xs == [] then []
    else if xs[0] == v then Others(xs[1..], v)
    else [xs[0]] + Others(xs[1..], v)
  }

  /**
   * The lane picked before the predictor is asked: if the lane last used in
   * this pair is open again, the first other open lane, so that the pair
   * alternates; otherwise a random open lane.
   */
  function ChooseLane(candidates: seq<int>, lastInPair: Option<int>, pick: nat): (lane: int)
    requires candidates != []
    ensures lane in candidates
    ensures lastInPair.Some? && lastInPair.value in candidates ==>
      (exists l :: l in candidates && l != lastInPair.value) ==> lane != lastInPair.value
  {
    if lastInPair.Some? && lastInPair.value in candidates then
      var others := Others(candidates, lastInPair.value);
      if others != [] then others[0] else Choice(candidates, pick)
    else
      Choice(candidates, pick)
  }

  /**
   * The lane that finally gets the obstacle: the predicted lane replaces the
   * chosen one when it is open and the adoption draw succeeds.
   */
  function FinalLane(candidates: seq<int>, lastInPair: Option<int>, pick: nat,
                     prediction: Option<int>, adopt: bool): (lane: int)
    requires candidates != []
    ensures lane in candidates
    ensures prediction.Some? && prediction.value in candidates && adopt ==> lane == prediction.value
    ensures !(prediction.Some? && prediction.value in candidates && adopt) ==>
            lane == ChooseLane(candidates, lastInPair, pick)
  {
    if prediction.Some? && prediction.value in candidates && adopt then prediction.value
    else ChooseLane(candidates, lastInPair, pick)
  }

  /**
   * The predictor's input: the previous obstacle's lane scaled to [0, 1], the
   * time since it appeared capped at two seconds and scaled to [0, 1], and the
   * obstacle speed capped at 10 and scaled to [0, 1].
   */
  function SpawnFeatures(lanes: int, lastLane: int, gapMs: int, speed: real): (f: Features)
    requires MIN_LANES <= lanes <= MAX_LANES
    ensures 0 <= lastLane < lanes ==> 0.0 <= f.lane <= 1.0
    ensures 0 <= gapMs ==> 0.0 <= f.gap <= 1.0
    ensures 0.0 <= speed ==> 0.0 <= f.speed <= 1.0
  {
    var denom := if lanes - 1 > 1 then lanes - 1 else 1;
    var gap := if gapMs < 2000 then gapMs else 2000;
    var capped := if speed < 10.0 then speed else 10.0;
    UnitFraction(lastLane as real, denom as real);
    UnitFraction(gap as real, 2000.0);
    UnitFraction(capped, 10.0);
    Features(lastLane as real / denom as real, gap as real / 2000.0, capped / 10.0)
  }

  /** A share of a positive whole that is at most the whole lies in [0, 1]. */
  lemma UnitFraction(part: real, whole: real)
    ensures 0.0 <= part <= whole && whole > 0.0 ==> 0.0 <= part / whole <= 1.0
  {
    if 0.0 <= part <= whole && whole > 0.0 {
      assert part / whole * whole == part;
    }
  }

  /** One step of the spawn-interval ramp after a successful spawn. */
  function NextInterval(hard: bool, interval: int): (r: int)
    ensures r <= interval
    ensures interval >= MinSpawnIntervalMs(hard) ==> r >= MinSpawnIntervalMs(hard)
    ensures interval > MinSpawnIntervalMs(hard) ==> r < interval
  {
    if interval > MinSpawnIntervalMs(hard) then
      var shorter := interval - SpawnDecreaseMs(hard);
      if shorter < MinSpawnIntervalMs(hard) then MinSpawnIntervalMs(hard) else shorter
    else interval
  }

  /** The spawn interval after `n` successful spawns of a run. */
  function IntervalAfter(hard: bool, n: nat): int {
    if n == 0 then SPAWN_INTERVAL_START_MS else NextInterval(hard, IntervalAfter(hard, n - 1))
  }

  /** The obstacle speed after `n` successful spawns of a run. */
  function SpeedAfter(hard: bool, n: nat): real {
    if n == 0 then ObstacleSpeedStart(hard) else SpeedAfter(hard, n - 1) + ObstacleSpeedIncrement(hard)
  }

  /**
   * The ramp in closed form: the interval falls by a fixed amount per spawn
   * down to its floor, and the speed rises by a fixed amount per spawn.
   */
  lemma {:induction false} RampClosedForm(hard: bool, n: nat)
    ensures IntervalAfter(hard, n) ==
      var shrunk := SPAWN_INTERVAL_START_MS - SpawnDecreaseMs(hard) * n;
      if shrunk < MinSpawnIntervalMs(hard) then MinSpawnIntervalMs(hard) else shrunk
    ensures SpeedAfter(hard, n) == ObstacleSpeedStart(hard) + ObstacleSpeedIncrement(hard) * n as real
  {
    if n > 0 {
      RampClosedForm(hard, n - 1);
      assert SpawnDecreaseMs(hard) * n == SpawnDecreaseMs(hard) * (n - 1) + SpawnDecreaseMs(hard);
      assert ObstacleSpeedIncrement(hard) * n as real
          == ObstacleSpeedIncrement(hard) * (n - 1) as real + ObstacleSpeedIncrement(hard);
    }
  }

  /**
   * Over a run the spawn interval never grows and stays between its floor
   * and its start value, and the obstacles never get slower.
   */
  lemma {:induction false} RampMonotone(hard: bool, m: nat, n: nat)
    requires m <= n
    ensures MinSpawnIntervalMs(hard) <= IntervalAfter(hard, n) <= IntervalAfter(hard, m) <= SPAWN_INTERVAL_START_MS
    ensures SpeedAfter(hard, m) <= SpeedAfter(hard, n)
  {
    if m < n {
      RampMonotone(hard, m, n - 1);
    } else if n > 0 {
      RampMonotone(hard, 0, n - 1);
    }
  }
}
